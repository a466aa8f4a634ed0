/** Who can log in and with which password, and what requests do to accounts. */
module AuthAccounts {
  import opened Prelude
  import opened Text
  import opened AuthModel
  import opened AuthTokens

  // ---- Accounts ----

  /** No two accounts share an address or a user name. */
  ghost predicate UniqueAccounts(users: map<UserId, User>) {
    forall u, v :: u in users && v in users && u != v ==>
      users[u].email != users[v].email && users[u].username != users[v].username
  }

  /** The request replaces the password or deactivates account `u`. */
  predicate Touches(cfg: Config, s: State, e: Event, u: UserId) {
    match e
    case DoChangePassword(access, current, next) =>
      CurrentUser(s, access) == Ok(u) && ChangePassword(cfg, s, access, current, next).1.Ok?
    case DoDeactivate(access) => CurrentUser(s, access) == Ok(u)
    case _ => false
  }

  ghost predicate TouchedIn(cfg: Config, s: State, es: seq<Event>, u: UserId)
    decreases |es|
  {
    es != [] && (Touches(cfg, s, es[0], u) || TouchedIn(cfg, Step(cfg, s, es[0]), es[1..], u))
  }

  lemma LoginKeepsUsers(cfg: Config, s: State, email: string, password: string)
    ensures Login(cfg, s, email, password).0.users == s.users
  {
  }

  lemma TokenRequestsKeepUsers(s: State, access: Option<Cookie>, refresh: Option<Cookie>)
    ensures RefreshTokens(s, refresh).0.users == s.users && Logout(s, refresh).users == s.users
    ensures AutoRefresh(s, access, refresh).0.users == s.users
  {
  }

  /** Registration succeeds exactly when the key, the address and the user name are free; the new
      account is active, at version zero, with the hash of the password. */
  lemma RegistersIff(cfg: Config, s: State, id: UserId, email: string, username: string, password: string)
    ensures Register(cfg, s, id, email, username, password).1.Ok? <==>
      && id !in s.users
      && (forall u :: u in s.users ==> s.users[u].email != email && s.users[u].username != username)
    ensures var (s', r) := Register(cfg, s, id, email, username, password);
      if r.Ok? then s'.users == s.users[id := User(email, username, cfg.hash(password), true, 0)] else s' == s
  {
  }

  lemma ChangeKeepsOthers(cfg: Config, s: State, access: Option<Cookie>, current: string, next: string)
    ensures var (s', r) := ChangePassword(cfg, s, access, current, next);
      && (r.Err? ==> s' == s)
      && (r.Ok? ==>
            && CurrentUser(s, access).Ok?
            && var u := CurrentUser(s, access).value;
            && u in s.users
            && var user := s.users[u].(passwordHash := cfg.hash(next), version := s.users[u].version + 1);
            && s'.users == s.users[u := user])
  {
  }

  lemma DeactivateKeepsOthers(s: State, access: Option<Cookie>)
    ensures var (s', r) := Deactivate(s, access);
      && (r.Err? ==> s' == s)
      && (r.Ok? ==>
            && CurrentUser(s, access) == Ok(r.value) && r.value in s.users
            && var user := s.users[r.value];
            && s'.users == s.users[r.value := user.(active := false, version := user.version + 1)])
  {
  }

  /** The accounts of `s'` are those of `s`, but for one more, or one that is touched. */
  lemma UserRequestsKeepAccounts(cfg: Config, s: State, e: Event, u: UserId)
    requires UniqueAccounts(s.users) && (e.DoRegister? || e.DoChangePassword? || e.DoDeactivate?)
    ensures UniqueAccounts(Step(cfg, s, e).users)
    ensures u in s.users && !Touches(cfg, s, e, u) ==>
      u in Step(cfg, s, e).users && Step(cfg, s, e).users[u] == s.users[u]
  {
    match e
    case DoRegister(id, email, username, password) => RegistersIff(cfg, s, id, email, username, password);
    case DoChangePassword(access, current, next) => ChangeKeepsOthers(cfg, s, access, current, next);
    case DoDeactivate(access) => DeactivateKeepsOthers(s, access);
  }

  lemma OtherRequestsKeepUsers(cfg: Config, s: State, e: Event)
    requires !e.DoRegister? && !e.DoChangePassword? && !e.DoDeactivate?
    ensures Step(cfg, s, e).users == s.users
  {
    match e
    case Tick(_) =>
    case DoLogin(email, password) => LoginKeepsUsers(cfg, s, email, password);
    case DoRefresh(refresh) => TokenRequestsKeepUsers(s, None, refresh);
    case DoLogout(refresh) => TokenRequestsKeepUsers(s, None, refresh);
    case DoAutoRefresh(access, refresh) => TokenRequestsKeepUsers(s, access, refresh);
  }

  /** A request leaves every account alone that it does not touch, and never makes two alike. */
  lemma StepKeepsAccounts(cfg: Config, s: State, e: Event, u: UserId)
    requires UniqueAccounts(s.users)
    ensures UniqueAccounts(Step(cfg, s, e).users)
    ensures u in s.users && !Touches(cfg, s, e, u) ==>
      u in Step(cfg, s, e).users && Step(cfg, s, e).users[u] == s.users[u]
  {
    if e.DoRegister? || e.DoChangePassword? || e.DoDeactivate? {
      UserRequestsKeepAccounts(cfg, s, e, u);
    } else {
      OtherRequestsKeepUsers(cfg, s, e);
    }
  }

  /** Over whole runs: accounts stay unique, and an account that nobody logged in to it has changed or
      deactivated is as it was. */
  lemma {:induction false} RunKeepsAccounts(cfg: Config, s: State, es: seq<Event>, u: UserId)
    requires UniqueAccounts(s.users)
    ensures UniqueAccounts(Run(cfg, s, es).users)
    ensures u in s.users && !TouchedIn(cfg, s, es, u) ==>
      u in Run(cfg, s, es).users && Run(cfg, s, es).users[u] == s.users[u]
    decreases |es|
  {
    if es != [] {
      StepKeepsAccounts(cfg, s, es[0], u);
      RunKeepsAccounts(cfg, Step(cfg, s, es[0]), es[1..], u);
    }
  }

  // ---- Logging in ----

  /** Ten failed checks are on the address's counter. */
  predicate Locked(cfg: Config, s: State, email: string) {
    GetAttempts(s, AttemptsKey(cfg, email)) >= 10
  }

  /** `u` is the account of the address, and its stored hash verifies the password. */
  predicate Opens(cfg: Config, s: State, u: UserId, email: string, password: string) {
    u in s.users && s.users[u].email == email && cfg.verify(password, s.users[u].passwordHash)
  }

  lemma FoundIsNamed(users: map<UserId, User>, email: string, u: UserId)
    requires UniqueAccounts(users)
    ensures FindByEmail(users, email) == Some(u) <==> u in users && users[u].email == email
    ensures FindByEmail(users, email) == None <==> forall v :: v in users ==> users[v].email != email
  {
  }

  /** A login succeeds if and only if the address is not locked and names an active account whose
      stored hash verifies the password. Otherwise the error says which: locked; no account with
      this address and password; or an inactive one. */
  lemma LoginIff(cfg: Config, s: State, email: string, password: string)
    requires UniqueAccounts(s.users)
    ensures var r := Login(cfg, s, email, password).1;
      && (r.Ok? <==>
            && !Locked(cfg, s, email)
            && exists u :: Opens(cfg, s, u, email, password) && s.users[u].active)
      && (r == Err(AccountLocked) <==> Locked(cfg, s, email))
      && (r == Err(InvalidCredentials) <==>
            && !Locked(cfg, s, email)
            && forall u :: !Opens(cfg, s, u, email, password))
      && (r == Err(UserInactive) <==>
            && !Locked(cfg, s, email)
            && exists u :: Opens(cfg, s, u, email, password) && !s.users[u].active)
  {
    var found := FindByEmail(s.users, email);
    if found.Some? {
      FoundIsNamed(s.users, email, found.value);
      forall u | Opens(cfg, s, u, email, password) ensures u == found.value {
        FoundIsNamed(s.users, email, u);
      }
      assert Opens(cfg, s, found.value, email, password)
        <==> cfg.verify(password, s.users[found.value].passwordHash);
    } else {
      FoundIsNamed(s.users, email, 0);
    }
  }

  /** The pair a login hands out is for the account of the address. */
  lemma LoginIsForAddress(cfg: Config, s: State, email: string, password: string)
    requires Login(cfg, s, email, password).1.Ok?
    ensures var pair := Login(cfg, s, email, password).1.value;
      && pair.access.sub == pair.refresh.sub && pair.access.sub in s.users
      && s.users[pair.access.sub].email == email
  {
  }

  // ---- Changing the password ----

  /** A change succeeds if and only if the guard lets the caller through and their stored hash
      verifies the current password; otherwise nothing changes. */
  lemma ChangesPasswordIff(cfg: Config, s: State, access: Option<Cookie>, current: string, next: string)
    ensures var (s', r) := ChangePassword(cfg, s, access, current, next);
      && (r.Ok? <==>
            && CurrentUser(s, access).Ok?
            && cfg.verify(current, s.users[CurrentUser(s, access).value].passwordHash))
      && (r.Err? ==> s' == s)
      && (CurrentUser(s, access).Ok? && r.Err? ==> r.error == InvalidCredentials)
  {
  }

  /** Verification accepts every password against its own hash. */
  ghost predicate Faithful(cfg: Config) {
    forall p :: cfg.verify(p, cfg.hash(p))
  }

  /** After a password change, and whatever happens until the next change or deactivation: while the
      address is not locked the new password logs in, and the old one does only if it verifies
      against the new hash. */
  lemma NewPasswordLogsIn(cfg: Config, s: State, access: Option<Cookie>, old': string, new': string, es: seq<Event>)
    requires Faithful(cfg) && UniqueAccounts(s.users)
    requires ChangePassword(cfg, s, access, old', new').1.Ok?
    requires !TouchedIn(cfg, ChangePassword(cfg, s, access, old', new').0, es, CurrentUser(s, access).value)
    ensures var email := s.users[CurrentUser(s, access).value].email;
      var s' := Run(cfg, ChangePassword(cfg, s, access, old', new').0, es);
      !Locked(cfg, s', email) ==>
        && Login(cfg, s', email, new').1.Ok?
        && (Login(cfg, s', email, old').1.Ok? <==> cfg.verify(old', cfg.hash(new')))
  {
    var u := CurrentUser(s, access).value;
    var s1 := ChangePassword(cfg, s, access, old', new').0;
    ChangeKeepsOthers(cfg, s, access, old', new');
    assert UniqueAccounts(s1.users);
    RunKeepsAccounts(cfg, s1, es, u);
    if !Locked(cfg, Run(cfg, s1, es), s.users[u].email) {
      AccountLogsIn(cfg, Run(cfg, s1, es), u, new');
      AccountLogsIn(cfg, Run(cfg, s1, es), u, old');
    }
  }

  lemma AccountLogsIn(cfg: Config, s: State, u: UserId, password: string)
    requires UniqueAccounts(s.users) && u in s.users && s.users[u].active && !Locked(cfg, s, s.users[u].email)
    ensures Login(cfg, s, s.users[u].email, password).1.Ok? <==> cfg.verify(password, s.users[u].passwordHash)
  {
    FoundIsNamed(s.users, s.users[u].email, u);
  }

  /** The password of a registration logs in until it is changed or the account deactivated, while
      the address is not locked. */
  lemma RegisteredLogsIn(cfg: Config, s: State, id: UserId, email: string, username: string,
                         password: string, es: seq<Event>)
    requires Faithful(cfg) && UniqueAccounts(s.users)
    requires Register(cfg, s, id, email, username, password).1.Ok?
    requires !TouchedIn(cfg, Register(cfg, s, id, email, username, password).0, es, id)
    ensures var s' := Run(cfg, Register(cfg, s, id, email, username, password).0, es);
      !Locked(cfg, s', email) ==> Login(cfg, s', email, password).1.Ok?
  {
    var s1 := Register(cfg, s, id, email, username, password).0;
    RegistersIff(cfg, s, id, email, username, password);
    RunKeepsAccounts(cfg, s1, es, id);
    if !Locked(cfg, Run(cfg, s1, es), email) {
      AccountLogsIn(cfg, Run(cfg, s1, es), id, password);
    }
  }

  // ---- The counter's address ----

  /** Surrounding white space and letter case do not give an address a second counter. */
  lemma OneCounterPerAddress(cfg: Config, email: string)
    requires Lawful(cfg.rules)
    ensures AttemptsKey(cfg, Strip(cfg.rules, email)) == AttemptsKey(cfg, email)
    ensures AttemptsKey(cfg, Lower(cfg.rules, email)) == AttemptsKey(cfg, email)
  {
    var _, _ := StripKeepsMiddle(cfg.rules, email);
    StripFixes(cfg.rules, Strip(cfg.rules, email));
    StripOfLower(cfg.rules, email);
    LowerIsLowerCase(cfg.rules, Strip(cfg.rules, email));
    LowerFixes(cfg.rules, Lower(cfg.rules, Strip(cfg.rules, email)));
  }

  // ---- Lifetimes ----

  /** An access token passes the guard for one hour from its whole second of issue and a refresh
      token is good for seven days, as long as the account's version is current and it is active. */
  lemma LifetimesAre(s: State, u: UserId, version: nat, later: int)
    requires u in s.users && s.users[u].active && s.users[u].version == version
    requires s.now >= 0 && later >= s.now
    ensures var (s', p) := MintPair(s, u, version);
      var issued := s.now / 1000000;
      && (CurrentUser(s'.(now := later), Some(Signed(p.access))).Ok? <==> later < (issued + 3600) * 1000000)
      && (Decode(s'.(now := later), Signed(p.refresh), Refresh).Ok? <==> later < (issued + 604800) * 1000000)
  {
  }

  // ---- What is let through ----

  /** The token is genuine, of this kind, and has not expired. */
  predicate Live(s: State, c: Cookie, kind: Kind) {
    c.Signed? && c.token in s.issued && c.token.kind == kind && s.now < c.token.exp * 1000000
  }

  /** The token's account exists, is active and at the token's version. */
  predicate Current(s: State, t: Token) {
    t.sub in s.users && s.users[t.sub].active && s.users[t.sub].version == Version(t)
  }

  /** The guard lets a request through exactly with a live access token of the current version of an
      active account, and knows it by that account. */
  lemma GuardIff(s: State, access: Option<Cookie>)
    ensures CurrentUser(s, access).Ok? <==>
      access.Some? && Live(s, access.value, Access) && Current(s, access.value.token)
    ensures CurrentUser(s, access).Ok? ==> CurrentUser(s, access) == Ok(access.value.token.sub)
  {
    GuardsAgree(s, access);
  }

  /** A refresh succeeds exactly with a live refresh token that is not denylisted, of the current
      version of an active account; the new pair is for that account and version. Otherwise nothing
      changes. */
  lemma RefreshIff(s: State, refresh: Option<Cookie>)
    ensures var (s', r) := RefreshTokens(s, refresh);
      && (r.Ok? <==>
            && refresh.Some? && !Denylisted(s, refresh.value)
            && Live(s, refresh.value, Refresh) && Current(s, refresh.value.token))
      && (r.Ok? ==>
            && r.value.access.sub == r.value.refresh.sub == refresh.value.token.sub
            && Version(r.value.access) == Version(r.value.refresh) == Version(refresh.value.token))
      && (r.Err? ==> s' == s)
  {
  }

  /** The middleware mints exactly for an expired access token that comes with a live refresh token
      not on the denylist. */
  lemma AutoRefreshIff(s: State, access: Option<Cookie>, refresh: Option<Cookie>)
    ensures AutoRefresh(s, access, refresh).1.Some? <==>
      && access.Some? && access.value.Signed? && access.value.token in s.issued
      && access.value.token.kind == Access && access.value.token.exp * 1000000 <= s.now
      && refresh.Some? && !Denylisted(s, refresh.value) && Live(s, refresh.value, Refresh)
  {
  }
}
