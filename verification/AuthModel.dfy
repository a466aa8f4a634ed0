/** Accounts, tokens and the login counter: the state shared by the authentication routes, the
    auto-refresh middleware and the guards of protected routes, and each request as a function on
    it. Times are microseconds; token times are whole seconds, as in a JWT. */
module AuthModel {
  import opened Prelude
  import opened Text

  type UserId = nat

  const SECOND := 1000000
  const ACCESS_LIFETIME := 3600
  const REFRESH_LIFETIME := 604800
  const MAX_LOGIN_ATTEMPTS := 10
  const LOGIN_LOCKOUT_TTL := 900

  /** Password hashing and verification, and the tables behind `strip` and `lower`. */
  datatype Config = Config(
    verify: (string, string) -> bool, hash: string -> string, rules: CaseRules)

  datatype User = User(email: string, username: string, passwordHash: string, active: bool, version: nat)

  datatype Kind = Access | Refresh

  /** A signed token. Tokens minted before versions existed carry none. */
  datatype Token = Token(kind: Kind, sub: UserId, ver: Option<nat>, jti: nat, iat: int, exp: int)

  /** What a client may present: a token, or any other text. */
  datatype Cookie = Signed(token: Token) | Garbage(text: string)

  datatype Attempts = Attempts(count: nat, expires: int)

  datatype State = State(
    now: int,
    users: map<UserId, User>,
    issued: set<Token>,          // tokens that bear the server's signature
    nextJti: nat,                // fresh token ids
    denylist: map<Cookie, int>,  // expiry of each entry
    attempts: map<string, Attempts>,
    // History, read by no request:
    origin: map<Token, Token>,   // the refresh token behind each auto-refreshed access token
    failures: map<string, seq<seq<int>>>)  // failed checks since the last success, by counter lifetime

  datatype Error =
    | InvalidToken | TokenExpired | NotAuthenticated | TokenRevoked | UserInactive
    | RefreshTokenMissing | InvalidCredentials | AccountLocked | RegistrationFailed

  datatype Pair = Pair(access: Token, refresh: Token)

  function Lifetime(kind: Kind): int {
    match kind case Access => ACCESS_LIFETIME case Refresh => REFRESH_LIFETIME
  }

  function Version(t: Token): nat {
    match t.ver case Some(v) => v case None => 0
  }

  // ---- Tokens ----

  function NewToken(s: State, kind: Kind, sub: UserId, version: nat): Token {
    Token(kind, sub, Some(version), s.nextJti, s.now / SECOND, s.now / SECOND + Lifetime(kind))
  }

  function Mint(s: State, kind: Kind, sub: UserId, version: nat): (State, Token) {
    var t := NewToken(s, kind, sub, version);
    (s.(issued := s.issued + {t}, nextJti := s.nextJti + 1), t)
  }

  function MintPair(s: State, sub: UserId, version: nat): (State, Pair) {
    var (s1, access) := Mint(s, Access, sub, version);
    var (s2, refresh) := Mint(s1, Refresh, sub, version);
    (s2, Pair(access, refresh))
  }

  /** `jwt_service._decode`: the signature first, then the expiry. The two kinds are signed with
      different secrets. */
  function Decode(s: State, c: Cookie, kind: Kind): Result<Token, Error> {
    if c.Garbage? || c.token !in s.issued || c.token.kind != kind then Err(InvalidToken)
    else if c.token.exp * SECOND <= s.now then Err(TokenExpired)
    else Ok(c.token)
  }

  // ---- The denylist ----

  predicate Denylisted(s: State, c: Cookie) {
    c in s.denylist && s.now < s.denylist[c]
  }

  function Denylist(s: State, c: Cookie): State {
    s.(denylist := s.denylist[c := s.now + REFRESH_LIFETIME * SECOND])
  }

  // ---- Guards of protected routes ----

  /** `get_current_user`. */
  function CurrentUser(s: State, access: Option<Cookie>): Result<UserId, Error> {
    match access
    case None => Err(NotAuthenticated)
    case Some(c) =>
      match Decode(s, c, Access)
      case Err(e) => Err(e)
      case Ok(t) =>
        if t.sub !in s.users then Err(NotAuthenticated)
        else if Version(t) != s.users[t.sub].version then Err(TokenRevoked)
        else if !s.users[t.sub].active then Err(UserInactive)
        else Ok(t.sub)
  }

  /** `get_optional_current_user`. */
  function OptionalUser(s: State, access: Option<Cookie>): Option<UserId> {
    match access
    case None => None
    case Some(c) =>
      match Decode(s, c, Access)
      case Err(_) => None
      case Ok(t) =>
        if t.sub !in s.users || !s.users[t.sub].active then None
        else if Version(t) != s.users[t.sub].version then None
        else Some(t.sub)
  }

  // ---- The login counter ----

  function AttemptsKey(cfg: Config, email: string): string {
    Lower(cfg.rules, Strip(cfg.rules, email))
  }

  predicate CounterAlive(s: State, key: string) {
    key in s.attempts && s.now < s.attempts[key].expires
  }

  function GetAttempts(s: State, key: string): nat {
    if CounterAlive(s, key) then s.attempts[key].count else 0
  }

  function FailuresOf(s: State, key: string): seq<seq<int>> {
    if key in s.failures then s.failures[key] else []
  }

  /** `record_failed_login`: the first failure of a counter sets its expiry, later ones keep it. */
  function RecordFailure(s: State, key: string): State {
    var past := FailuresOf(s, key);
    if CounterAlive(s, key) then
      s.(attempts := s.attempts[key := s.attempts[key].(count := s.attempts[key].count + 1)],
         failures := s.failures[key :=
           if past == [] then [[s.now]]
           else past[..|past| - 1] + [past[|past| - 1] + [s.now]]])
    else
      s.(attempts := s.attempts[key := Attempts(1, s.now + LOGIN_LOCKOUT_TTL * SECOND)],
         failures := s.failures[key := past + [[s.now]]])
  }

  function ResetAttempts(s: State, key: string): State {
    s.(attempts := s.attempts - {key}, failures := s.failures[key := []])
  }

  // ---- Requests ----

  ghost function FindByEmail(users: map<UserId, User>, email: string): Option<UserId> {
    if exists u :: u in users && users[u].email == email
    then var u :| u in users && users[u].email == email; Some(u)
    else None
  }

  /** `login`. */
  ghost function Login(cfg: Config, s: State, email: string, password: string): (State, Result<Pair, Error>) {
    var key := AttemptsKey(cfg, email);
    if GetAttempts(s, key) >= MAX_LOGIN_ATTEMPTS then (s, Err(AccountLocked))
    else
      var found := FindByEmail(s.users, email);
      if found.None? || !cfg.verify(password, s.users[found.value].passwordHash)
      then (RecordFailure(s, key), Err(InvalidCredentials))
      else if !s.users[found.value].active then (s, Err(UserInactive))
      else
        var (s', pair) := MintPair(s, found.value, s.users[found.value].version);
        (ResetAttempts(s', key), Ok(pair))
  }

  /** `register`: `id` is the key of the new row; user name and email are unique. */
  function Register(cfg: Config, s: State, id: UserId, email: string, username: string, password: string)
    : (State, Result<Pair, Error>)
  {
    if id in s.users || exists u :: u in s.users && (s.users[u].email == email || s.users[u].username == username)
    then (s, Err(RegistrationFailed))
    else
      var s1 := s.(users := s.users[id := User(email, username, cfg.hash(password), true, 0)]);
      var (s', pair) := MintPair(s1, id, 0);
      (s', Ok(pair))
  }

  /** `refresh`: the presented token is spent and a new pair is handed out. */
  function RefreshTokens(s: State, refresh: Option<Cookie>): (State, Result<Pair, Error>) {
    match refresh
    case None => (s, Err(RefreshTokenMissing))
    case Some(c) =>
      if Denylisted(s, c) then (s, Err(TokenRevoked))
      else
        match Decode(s, c, Refresh)
        case Err(e) => (s, Err(e))
        case Ok(t) =>
          if t.sub !in s.users || !s.users[t.sub].active then (s, Err(TokenRevoked))
          else if Version(t) != s.users[t.sub].version then (s, Err(TokenRevoked))
          else
            var (s', pair) := MintPair(Denylist(s, c), t.sub, s.users[t.sub].version);
            (s', Ok(pair))
  }

  /** `logout`: whatever is presented goes on the denylist. */
  function Logout(s: State, refresh: Option<Cookie>): State {
    match refresh case None => s case Some(c) => Denylist(s, c)
  }

  /** `AutoRefreshMiddleware.dispatch`: an expired access token is replaced by one minted from the
      refresh token, which is not spent; the version is carried through. */
  function AutoRefresh(s: State, access: Option<Cookie>, refresh: Option<Cookie>): (State, Option<Token>) {
    if access.None? || Decode(s, access.value, Access) != Err(TokenExpired) || refresh.None? then (s, None)
    else if Denylisted(s, refresh.value) then (s, None)
    else
      match Decode(s, refresh.value, Refresh)
      case Err(_) => (s, None)
      case Ok(t) =>
        var (s', a) := Mint(s, Access, t.sub, Version(t));
        (s'.(origin := s'.origin[a := t]), Some(a))
  }

  /** `change_password` for the user its guard has let through. */
  function StorePassword(cfg: Config, s: State, u: UserId, current: string, next: string)
    : (State, Result<Pair, Error>)
    requires u in s.users
  {
    if !cfg.verify(current, s.users[u].passwordHash) then (s, Err(InvalidCredentials))
    else
      var user := s.users[u].(passwordHash := cfg.hash(next), version := s.users[u].version + 1);
      var (s', pair) := MintPair(s.(users := s.users[u := user]), u, user.version);
      (s', Ok(pair))
  }

  /** `change_password` behind its guard: the version is bumped and the caller gets a new pair. */
  function ChangePassword(cfg: Config, s: State, access: Option<Cookie>, current: string, next: string)
    : (State, Result<Pair, Error>)
  {
    match CurrentUser(s, access)
    case Err(e) => (s, Err(e))
    case Ok(u) =>
      if u !in s.users then (s, Err(InvalidCredentials)) else StorePassword(cfg, s, u, current, next)
  }

  /** `deactivate_account` behind its guard. */
  function Deactivate(s: State, access: Option<Cookie>): (State, Result<UserId, Error>) {
    match CurrentUser(s, access)
    case Err(e) => (s, Err(e))
    case Ok(u) =>
      if u !in s.users then (s, Err(NotAuthenticated))
      else (s.(users := s.users[u := s.users[u].(active := false, version := s.users[u].version + 1)]), Ok(u))
  }

  // ---- Runs ----

  datatype Event =
    | Tick(to: int)
    | DoRegister(id: UserId, email: string, username: string, password: string)
    | DoLogin(email: string, password: string)
    | DoRefresh(refresh: Option<Cookie>)
    | DoLogout(refresh: Option<Cookie>)
    | DoAutoRefresh(access: Option<Cookie>, refresh: Option<Cookie>)
    | DoChangePassword(access: Option<Cookie>, current: string, next: string)
    | DoDeactivate(access: Option<Cookie>)

  /** Signatures cannot be forged: a client presents tokens that were issued, or other text. */
  predicate Presentable(s: State, c: Option<Cookie>) {
    c.Some? && c.value.Signed? ==> c.value.token in s.issued
  }

  predicate Possible(s: State, e: Event) {
    match e
    case DoRefresh(refresh) => Presentable(s, refresh)
    case DoLogout(refresh) => Presentable(s, refresh)
    case DoAutoRefresh(access, refresh) => Presentable(s, access) && Presentable(s, refresh)
    case _ => true
  }

  ghost function Step(cfg: Config, s: State, e: Event): State {
    if !Possible(s, e) then s
    else
      match e
      case Tick(to) => if to > s.now then s.(now := to) else s
      case DoRegister(id, email, username, password) => Register(cfg, s, id, email, username, password).0
      case DoLogin(email, password) => Login(cfg, s, email, password).0
      case DoRefresh(refresh) => RefreshTokens(s, refresh).0
      case DoLogout(refresh) => Logout(s, refresh)
      case DoAutoRefresh(access, refresh) => AutoRefresh(s, access, refresh).0
      case DoChangePassword(access, current, next) => ChangePassword(cfg, s, access, current, next).0
      case DoDeactivate(access) => Deactivate(s, access).0
  }

  ghost function Run(cfg: Config, s: State, es: seq<Event>): State
    decreases |es|
  {
    if es == [] then s else Run(cfg, Step(cfg, s, es[0]), es[1..])
  }
}
