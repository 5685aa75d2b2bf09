/** The login, session and logout tables of crates/cli/src/auth.rs on values: what one
    request through the gate does, and what it records in the history. Verification by
    the provider is an oracle; random keys are inputs. */
module AuthModel {
  import opened Octets
  import opened Groups

  type Key = nat

  const SECOND := 1_000_000_000
  const MAX_FLOWS := 64
  const MAX_SESSIONS := 128
  const MAX_LOGOUTS := 128
  const FLOW_SECONDS := 300
  const SESSION_SECONDS := 3600
  const LOGOUT_SECONDS := 60

  datatype ProviderLogout = ProviderLogout(endpoint: string, idToken: string)

  /** Instants are nanoseconds of the monotonic clock. */
  datatype Flow = Flow(expires: nat, logoutEndpoint: Option<string>)
  datatype Session = Session(expires: nat, username: string, providerLogout: Option<ProviderLogout>)
  datatype PendingLogout = PendingLogout(expires: nat, provider: ProviderLogout)

  datatype Tables = Tables(flows: map<Key, Flow>, sessions: map<Key, Session>, logouts: map<Key, PendingLogout>)

  const NoTables := Tables(map[], map[], map[])

  // ---------- requests and the environment's part ----------

  datatype Method = Get | Post | OtherMethod
  datatype Path = LoginPath | CallbackPath | EndSessionPath | ScriptPath | LogoutPath | SignedOutPath | SessionPath | ApiPath | OtherPath

  datatype Request = Request(
    verb: Method, path: Path, uiHeader: bool,
    flowCookie: Option<Key>, sessionCookie: Option<Key>, logoutCookie: Option<Key>)

  /** The provider's verdict on a callback: state, code, token and claims all verified. */
  datatype Verified = Verified(claim: Claim, secondsLeft: int, username: string, idToken: string)

  /** Three clock readings of one request, the random key it may use, and the provider's
      answers (`discovery`: the logout endpoint, if login can begin at all). */
  datatype Turn = Turn(
    at: nat, mid: nat, end: nat, key: Key,
    discovery: Option<Option<string>>, verdict: Option<Verified>)

  datatype Reply =
    | TooManyLogins | LoginUnavailable | ToProvider | SignedIn | SessionLimit | Denied
    | LogoutForm(provider: ProviderLogout) | LogoutGone | Script | Forbidden | LogoutAtProvider | LogoutLocal
    | SignedOutPage | SignInRequired | ToLogin | Identity(username: string)
    | PassOn

  // ---------- history ----------

  /** `Superseded`, `Displaced` and `Forgotten` are the ends of entries that a new one
      replaces because the request's cookie names them. */
  datatype Event =
    | Began(flow: Key, at: nat, flowExpires: nat, endpoint: Option<string>)
    | Superseded(flow: Key)
    | Consumed(flow: Key)
    | LoggedIn(session: Key, flow: Key, verifiedAt: nat, at: nat, expires: nat, user: Verified)
    | Displaced(session: Key)
    | LoggedOut(session: Key)
    | HandedOff(logout: Key, session: Key, at: nat, logoutExpires: nat, provider: ProviderLogout)
    | Forgotten(logout: Key)
    | Redeemed(logout: Key, at: nat)
    | Passed(session: Key, at: nat)

  datatype Result = Result(tables: Tables, reply: Reply, events: seq<Event>)

  lemma LogInParts(log: seq<Event>, e: Event, rest: seq<Event>)
    ensures (log + [e]) + rest == log + ([e] + rest)
  {
  }

  // ---------- operations ----------

  function Without<V>(m: map<Key, V>, cookie: Option<Key>): map<Key, V> {
    if cookie.None? then m else m - {cookie.value}
  }

  function Present<V>(m: map<Key, V>, cookie: Option<Key>): bool {
    cookie.Some? && cookie.value in m
  }

  function Prune(t: Tables, now: nat): Tables {
    Tables(map k | k in t.flows && t.flows[k].expires > now :: t.flows[k],
           map k | k in t.sessions && t.sessions[k].expires > now :: t.sessions[k],
           map k | k in t.logouts && t.logouts[k].expires > now :: t.logouts[k])
  }

  function Superseding(flows: map<Key, Flow>, cookie: Option<Key>): seq<Event> {
    if Present(flows, cookie) then [Superseded(cookie.value)] else []
  }

  function Begin(t: Tables, cookie: Option<Key>, n: Turn, endpoint: Option<string>): Result {
    var flow := Flow(n.mid + FLOW_SECONDS * SECOND, endpoint);
    Result(t.(flows := Without(t.flows, cookie)[n.key := flow]), ToProvider,
           Superseding(t.flows, cookie) + [Began(n.key, n.mid, flow.expires, endpoint)])
  }

  function Login(t: Tables, r: Request, n: Turn): Result {
    if |t.flows| >= MAX_FLOWS then Result(t, TooManyLogins, [])
    else match n.discovery
      case None => Result(t, LoginUnavailable, [])
      case Some(endpoint) => Begin(t, r.flowCookie, n, endpoint)
  }

  datatype LoginData = LoginData(lifetime: nat, user: Verified, providerLogout: Option<ProviderLogout>)

  function Clamp(seconds: int): nat {
    if seconds < 0 then 0 else if seconds > SESSION_SECONDS then SESSION_SECONDS else seconds
  }

  /** The flow must be unexpired, the provider must vouch for the user, the group claim
      must grant access, and the token must have time left. */
  function FinishLogin(required: string, flow: Flow, n: Turn): Option<LoginData> {
    if flow.expires <= n.mid || n.verdict.None? then None
    else
      var v := n.verdict.value;
      if !HasGroup(v.claim, required) || Clamp(v.secondsLeft) == 0 then None
      else
        var logout := match flow.logoutEndpoint case None => None case Some(e) => Some(ProviderLogout(e, v.idToken));
        Some(LoginData(Clamp(v.secondsLeft), v, logout))
  }

  function Displacing(sessions: map<Key, Session>, cookie: Option<Key>): seq<Event> {
    if Present(sessions, cookie) then [Displaced(cookie.value)] else []
  }

  function Opened(n: Turn, login: LoginData): Session {
    Session(n.end + login.lifetime * SECOND, login.user.username, login.providerLogout)
  }

  function OpenedBy(f: Key, n: Turn, login: LoginData): Event {
    LoggedIn(n.key, f, n.mid, n.end, Opened(n, login).expires, login.user)
  }

  function SignIn(t: Tables, f: Key, cookie: Option<Key>, n: Turn, login: LoginData): Result {
    Result(t.(sessions := Without(t.sessions, cookie)[n.key := Opened(n, login)]), SignedIn,
           Displacing(t.sessions, cookie) + [OpenedBy(f, n, login)])
  }

  function Callback(required: string, t: Tables, r: Request, n: Turn): Result {
    if !Present(t.flows, r.flowCookie) then Result(t, Denied, [])
    else
      var f := r.flowCookie.value;
      var consumed := t.(flows := t.flows - {f});
      match FinishLogin(required, t.flows[f], n)
      case None => Result(consumed, Denied, [Consumed(f)])
      case Some(login) =>
        if |t.sessions| >= MAX_SESSIONS then Result(consumed, SessionLimit, [Consumed(f)])
        else
          var x := SignIn(consumed, f, r.sessionCookie, n, login);
          x.(events := [Consumed(f)] + x.events)
  }

  function EndSession(t: Tables, r: Request, n: Turn): Result {
    if !Present(t.logouts, r.logoutCookie) then Result(t, LogoutGone, [])
    else
      var l := r.logoutCookie.value;
      Result(t.(logouts := t.logouts - {l}), LogoutForm(t.logouts[l].provider), [Redeemed(l, n.at)])
  }

  function Forgetting(logouts: map<Key, PendingLogout>, cookie: Option<Key>): seq<Event> {
    if Present(logouts, cookie) then [Forgotten(cookie.value)] else []
  }

  function HandOff(t: Tables, s: Key, cookie: Option<Key>, n: Turn, provider: ProviderLogout): Result {
    var pending := PendingLogout(n.end + LOGOUT_SECONDS * SECOND, provider);
    Result(t.(logouts := Without(t.logouts, cookie)[n.key := pending]), LogoutAtProvider,
           Forgetting(t.logouts, cookie) + [HandedOff(n.key, s, n.end, pending.expires, provider)])
  }

  function Logout(t: Tables, r: Request, n: Turn): Result
    requires Present(t.sessions, r.sessionCookie)
  {
    var s := r.sessionCookie.value;
    var out := t.(sessions := t.sessions - {s});
    match t.sessions[s].providerLogout
    case Some(provider) =>
      if |t.logouts| >= MAX_LOGOUTS then Result(out, LogoutLocal, [LoggedOut(s)])
      else
        var x := HandOff(out, s, r.logoutCookie, n, provider);
        x.(events := [LoggedOut(s)] + x.events)
    case None => Result(out, LogoutLocal, [LoggedOut(s)])
  }

  function GatePruned(required: string, t: Tables, r: Request, n: Turn): Result {
    var authenticated := Present(t.sessions, r.sessionCookie);
    if r.verb.Get? && r.path.LoginPath? then Login(t, r, n)
    else if r.verb.Get? && r.path.CallbackPath? then Callback(required, t, r, n)
    else if r.verb.Get? && r.path.EndSessionPath? then EndSession(t, r, n)
    else if r.verb.Get? && r.path.ScriptPath? then Result(t, Script, [])
    else if r.path.LogoutPath? && r.verb.Post? then
      if !r.uiHeader || !authenticated then Result(t, Forbidden, []) else Logout(t, r, n)
    else if r.verb.Get? && r.path.SignedOutPath? then Result(t, SignedOutPage, [])
    else if !authenticated then
      Result(t, if r.path.SessionPath? || r.path.ApiPath? || !r.verb.Get? then SignInRequired else ToLogin, [])
    else if r.path.SessionPath? && r.verb.Get? then Result(t, Identity(t.sessions[r.sessionCookie.value].username), [])
    else Result(t, PassOn, [Passed(r.sessionCookie.value, n.at)])
  }

  /** One request: expired entries go first. */
  function Gate(required: string, t: Tables, r: Request, n: Turn): Result {
    GatePruned(required, Prune(t, n.at), r, n)
  }
}
