/** The mutable tables of crates/cli/src/auth.rs (`Auth`), with the history as ghost. */
module AuthState {
  import opened Octets
  import opened AuthModel

  class Auth {
    const required: string
    var flows: map<Key, Flow>
    var sessions: map<Key, Session>
    var logouts: map<Key, PendingLogout>
    ghost var log: seq<Event>

    ghost function View(): Tables
      reads this
    {
      Tables(flows, sessions, logouts)
    }

    /** The tables, the reply and the growth of the history are those of `x`. */
    ghost predicate Did(x: Result, reply: Reply, before: seq<Event>)
      reads this
    {
      View() == x.tables && reply == x.reply && log == before + x.events
    }

    constructor (required: string)
      ensures this.required == required && View() == NoTables && log == []
    {
      this.required := required;
      flows, sessions, logouts, log := map[], map[], map[], [];
    }

    method PruneAll(now: nat)
      modifies this
      ensures View() == Prune(old(View()), now) && log == old(log)
    {
      flows := map k | k in flows && flows[k].expires > now :: flows[k];
      sessions := map k | k in sessions && sessions[k].expires > now :: sessions[k];
      logouts := map k | k in logouts && logouts[k].expires > now :: logouts[k];
    }

    method OnLogin(r: Request, n: Turn) returns (reply: Reply)
      modifies this
      ensures Did(Login(old(View()), r, n), reply, old(log))
    {
      if |flows| >= MAX_FLOWS { return TooManyLogins; }
      match n.discovery
      case None => return LoginUnavailable;
      case Some(endpoint) =>
        var flow := Flow(n.mid + FLOW_SECONDS * SECOND, endpoint);
        if r.flowCookie.Some? {
          if r.flowCookie.value in flows { log := log + [Superseded(r.flowCookie.value)]; }
          flows := flows - {r.flowCookie.value};
        }
        flows := flows[n.key := flow];
        log := log + [Began(n.key, n.mid, flow.expires, endpoint)];
        return ToProvider;
    }

    /** A session under a fresh key, in place of the one the cookie names. */
    method Open(f: Key, cookie: Option<Key>, n: Turn, login: LoginData) returns (reply: Reply)
      modifies this
      ensures Did(SignIn(old(View()), f, cookie, n, login), reply, old(log))
    {
      hide Opened;
      hide OpenedBy;
      if cookie.Some? {
        if cookie.value in sessions { log := log + [Displaced(cookie.value)]; }
        sessions := sessions - {cookie.value};
      }
      sessions := sessions[n.key := Opened(n, login)];
      log := log + [OpenedBy(f, n, login)];
      return SignedIn;
    }

    method OnCallback(r: Request, n: Turn) returns (reply: Reply)
      modifies this
      ensures Did(Callback(required, old(View()), r, n), reply, old(log))
    {
      hide FinishLogin;
      hide SignIn;
      if r.flowCookie.None? || r.flowCookie.value !in flows { return Denied; }
      var f := r.flowCookie.value;
      var flow := flows[f];
      flows := flows - {f};
      ghost var before := log;
      log := log + [Consumed(f)];
      var login := FinishLogin(required, flow, n);
      if login.None? { return Denied; }
      if |sessions| >= MAX_SESSIONS { return SessionLimit; }
      ghost var taken := View();
      reply := Open(f, r.sessionCookie, n, login.value);
      LogInParts(before, Consumed(f), SignIn(taken, f, r.sessionCookie, n, login.value).events);
    }

    method OnEndSession(r: Request, n: Turn) returns (reply: Reply)
      modifies this
      ensures Did(EndSession(old(View()), r, n), reply, old(log))
    {
      if r.logoutCookie.None? || r.logoutCookie.value !in logouts { return LogoutGone; }
      var provider := logouts[r.logoutCookie.value].provider;
      logouts := logouts - {r.logoutCookie.value};
      log := log + [Redeemed(r.logoutCookie.value, n.at)];
      return LogoutForm(provider);
    }

    /** A pending logout under a fresh key, in place of the one the cookie names. */
    method Hand(s: Key, cookie: Option<Key>, n: Turn, provider: ProviderLogout) returns (reply: Reply)
      modifies this
      ensures Did(HandOff(old(View()), s, cookie, n, provider), reply, old(log))
    {
      if cookie.Some? {
        if cookie.value in logouts { log := log + [Forgotten(cookie.value)]; }
        logouts := logouts - {cookie.value};
      }
      var expires := n.end + LOGOUT_SECONDS * SECOND;
      logouts := logouts[n.key := PendingLogout(expires, provider)];
      log := log + [HandedOff(n.key, s, n.end, expires, provider)];
      return LogoutAtProvider;
    }

    method OnLogout(r: Request, n: Turn) returns (reply: Reply)
      requires Present(sessions, r.sessionCookie)
      modifies this
      ensures Did(Logout(old(View()), r, n), reply, old(log))
    {
      hide HandOff;
      var s := r.sessionCookie.value;
      var session := sessions[s];
      sessions := sessions - {s};
      ghost var before := log;
      log := log + [LoggedOut(s)];
      if session.providerLogout.None? || |logouts| >= MAX_LOGOUTS { return LogoutLocal; }
      ghost var out := View();
      reply := Hand(s, r.logoutCookie, n, session.providerLogout.value);
      LogInParts(before, LoggedOut(s), HandOff(out, s, r.logoutCookie, n, session.providerLogout.value).events);
    }

    /** Every request passes through here; only `PassOn` lets it reach the application. */
    method OnGate(r: Request, n: Turn) returns (reply: Reply)
      modifies this
      ensures Did(Gate(required, old(View()), r, n), reply, old(log))
    {
      PruneAll(n.at);
      if r.verb.Get? && r.path.LoginPath? { reply := OnLogin(r, n); return; }
      if r.verb.Get? && r.path.CallbackPath? { reply := OnCallback(r, n); return; }
      if r.verb.Get? && r.path.EndSessionPath? { reply := OnEndSession(r, n); return; }
      if r.verb.Get? && r.path.ScriptPath? { return Script; }
      var authenticated := r.sessionCookie.Some? && r.sessionCookie.value in sessions;
      if r.path.LogoutPath? && r.verb.Post? {
        if !r.uiHeader || !authenticated { return Forbidden; }
        reply := OnLogout(r, n);
        return;
      }
      if r.verb.Get? && r.path.SignedOutPath? { return SignedOutPage; }
      if !authenticated {
        return if r.path.SessionPath? || r.path.ApiPath? || !r.verb.Get? then SignInRequired else ToLogin;
      }
      if r.path.SessionPath? && r.verb.Get? { return Identity(sessions[r.sessionCookie.value].username); }
      log := log + [Passed(r.sessionCookie.value, n.at)];
      return PassOn;
    }
  }
}
