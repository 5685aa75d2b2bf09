/** The converse of what `AuthRuns` says of the tables: no entry is lost before its time.
    So over every run each table holds exactly the live entries of the history, and every
    request is answered exactly as the history demands. */
module AuthLive {
  import opened Octets
  import opened Groups
  import opened AuthModel
  import opened AuthRuns

  // ---------- live entries, read off the history ----------

  /** A login begun, neither finished nor superseded nor expired. */
  predicate FlowLives(log: seq<Event>, e: Event, now: nat) {
    e.Began? && Consumed(e.flow) !in log && Superseded(e.flow) !in log && e.flowExpires > now
  }

  /** A session opened, neither logged out nor displaced nor expired. */
  predicate SessionLives(log: seq<Event>, e: Event, now: nat) {
    e.LoggedIn? && LoggedOut(e.session) !in log && Displaced(e.session) !in log && e.expires > now
  }

  /** A logout handed off, neither redeemed nor forgotten nor expired. */
  predicate LogoutLives(log: seq<Event>, e: Event, now: nat) {
    e.HandedOff? && NotRedeemed(log, e.logout) && Forgotten(e.logout) !in log && e.logoutExpires > now
  }

  predicate FlowsKept(flows: map<Key, Flow>, log: seq<Event>, now: nat) {
    forall e | e in log && FlowLives(log, e, now) ::
      e.flow in flows && flows[e.flow] == Flow(e.flowExpires, e.endpoint)
  }

  predicate SessionsKept(sessions: map<Key, Session>, log: seq<Event>, now: nat) {
    forall e | e in log && SessionLives(log, e, now) ::
      e.session in sessions && sessions[e.session].expires == e.expires
  }

  predicate LogoutsKept(logouts: map<Key, PendingLogout>, log: seq<Event>, now: nat) {
    forall e | e in log && LogoutLives(log, e, now) ::
      e.logout in logouts && logouts[e.logout] == PendingLogout(e.logoutExpires, e.provider)
  }

  // ---------- flows ----------

  lemma FlowsMore(flows: map<Key, Flow>, log: seq<Event>, more: seq<Event>, now: nat, later: nat)
    requires FlowsKept(flows, log, now) && now <= later && forall e | e in more :: !e.Began?
    ensures FlowsKept(flows, log + more, later)
  {
    forall e | e in log + more && FlowLives(log + more, e, later)
      ensures e.flow in flows && flows[e.flow] == Flow(e.flowExpires, e.endpoint)
    {
      assert FlowLives(log, e, now);
    }
  }

  lemma FlowsDrop(flows: map<Key, Flow>, log: seq<Event>, f: Key, e: Event, now: nat)
    requires FlowsKept(flows, log, now) && (e == Consumed(f) || e == Superseded(f))
    ensures FlowsKept(flows - {f}, log + [e], now)
  {
    var left := flows - {f};
    forall b | b in log + [e] && FlowLives(log + [e], b, now)
      ensures b.flow in left && left[b.flow] == Flow(b.flowExpires, b.endpoint)
    {
      assert e in log + [e] && FlowLives(log, b, now);
    }
  }

  lemma FlowsAdd(flows: map<Key, Flow>, log: seq<Event>, e: Event, now: nat)
    requires FlowsKept(flows, log, now) && e.Began? && FreshKey(log, e.flow)
    ensures FlowsKept(flows[e.flow := Flow(e.flowExpires, e.endpoint)], log + [e], now)
  {
    var more := flows[e.flow := Flow(e.flowExpires, e.endpoint)];
    forall b | b in log + [e] && FlowLives(log + [e], b, now)
      ensures b.flow in more && more[b.flow] == Flow(b.flowExpires, b.endpoint)
    {
      if b != e {
        assert b in log && FlowLives(log, b, now);
        assert !Draws(b, e.flow);
      }
    }
  }

  lemma FlowsPruned(t: Tables, log: seq<Event>, now: nat, later: nat)
    requires FlowsKept(t.flows, log, now) && now <= later
    ensures FlowsKept(Prune(t, later).flows, log, later)
  {
    forall e | e in log && FlowLives(log, e, later)
      ensures e.flow in Prune(t, later).flows && Prune(t, later).flows[e.flow] == Flow(e.flowExpires, e.endpoint)
    {
      assert FlowLives(log, e, now);
    }
  }

  lemma BeginKeepsFlows(t: Tables, log: seq<Event>, cookie: Option<Key>, n: Turn, endpoint: Option<string>)
    requires FlowsKept(t.flows, log, n.end) && FreshKey(log, n.key)
    ensures var x := Begin(t, cookie, n, endpoint); FlowsKept(x.tables.flows, log + x.events, n.end)
  {
    hide FlowsKept;
    var e := Began(n.key, n.mid, n.mid + FLOW_SECONDS * SECOND, endpoint);
    LoneEvent(e);
    if Present(t.flows, cookie) {
      var f := cookie.value;
      FlowsDrop(t.flows, log, f, Superseded(f), n.end);
      FreshAppend(log, Superseded(f), n.key);
      FlowsAdd(t.flows - {f}, log + [Superseded(f)], e, n.end);
      LogInParts(log, Superseded(f), [e]);
    } else {
      assert Without(t.flows, cookie) == t.flows;
      FlowsAdd(t.flows, log, e, n.end);
    }
  }

  lemma CallbackKeepsFlows(required: string, t: Tables, log: seq<Event>, r: Request, n: Turn)
    requires FlowsKept(t.flows, log, n.end)
    ensures var x := Callback(required, t, r, n); FlowsKept(x.tables.flows, log + x.events, n.end)
  {
    NothingLogged(log);
    if Present(t.flows, r.flowCookie) {
      var f := r.flowCookie.value;
      var x := Callback(required, t, r, n);
      CallbackBegins(required, t, r, n);
      hide Callback;
      FlowsDrop(t.flows, log, f, Consumed(f), n.end);
      FlowsMore(t.flows - {f}, log + [Consumed(f)], x.events[1..], n.end, n.end);
      LogInParts(log, Consumed(f), x.events[1..]);
      assert x.events == [Consumed(f)] + x.events[1..];
    }
  }

  /** A callback on a live flow consumes it before anything else, and begins none. */
  lemma CallbackBegins(required: string, t: Tables, r: Request, n: Turn)
    requires Present(t.flows, r.flowCookie)
    ensures var x := Callback(required, t, r, n);
            && x.events != [] && x.events[0] == Consumed(r.flowCookie.value)
            && x.tables.flows == t.flows - {r.flowCookie.value}
            && forall e | e in x.events[1..] :: !e.Began? && !e.HandedOff?
  {
    hide FinishLogin;
  }

  // ---------- sessions ----------

  lemma SessionsMore(sessions: map<Key, Session>, log: seq<Event>, more: seq<Event>, now: nat, later: nat)
    requires SessionsKept(sessions, log, now) && now <= later && forall e | e in more :: !e.LoggedIn?
    ensures SessionsKept(sessions, log + more, later)
  {
    forall e | e in log + more && SessionLives(log + more, e, later)
      ensures e.session in sessions && sessions[e.session].expires == e.expires
    {
      assert SessionLives(log, e, now);
    }
  }

  lemma SessionsDrop(sessions: map<Key, Session>, log: seq<Event>, s: Key, e: Event, now: nat)
    requires SessionsKept(sessions, log, now) && (e == LoggedOut(s) || e == Displaced(s))
    ensures SessionsKept(sessions - {s}, log + [e], now)
  {
    forall b | b in log + [e] && SessionLives(log + [e], b, now)
      ensures b.session in sessions - {s} && (sessions - {s})[b.session].expires == b.expires
    {
      assert e in log + [e];
      assert SessionLives(log, b, now);
    }
  }

  lemma SessionsAdd(sessions: map<Key, Session>, log: seq<Event>, e: Event, session: Session, now: nat)
    requires SessionsKept(sessions, log, now) && e.LoggedIn? && FreshKey(log, e.session) && session.expires == e.expires
    ensures SessionsKept(sessions[e.session := session], log + [e], now)
  {
    forall b | b in log + [e] && SessionLives(log + [e], b, now)
      ensures b.session in sessions[e.session := session] && sessions[e.session := session][b.session].expires == b.expires
    {
      if b != e {
        assert b in log && SessionLives(log, b, now);
        assert !Draws(b, e.session);
      }
    }
  }

  lemma SessionsPruned(t: Tables, log: seq<Event>, now: nat, later: nat)
    requires SessionsKept(t.sessions, log, now) && now <= later
    ensures SessionsKept(Prune(t, later).sessions, log, later)
  {
    forall e | e in log && SessionLives(log, e, later)
      ensures e.session in Prune(t, later).sessions && Prune(t, later).sessions[e.session].expires == e.expires
    {
      assert SessionLives(log, e, now);
    }
  }

  lemma SignInKeepsSessions(t: Tables, log: seq<Event>, f: Key, cookie: Option<Key>, n: Turn, login: LoginData)
    requires SessionsKept(t.sessions, log, n.end) && FreshKey(log, n.key)
    ensures var x := SignIn(t, f, cookie, n, login); SessionsKept(x.tables.sessions, log + x.events, n.end)
  {
    hide SessionsKept;
    var e := OpenedBy(f, n, login);
    LoneEvent(e);
    if Present(t.sessions, cookie) {
      var s := cookie.value;
      SessionsDrop(t.sessions, log, s, Displaced(s), n.end);
      FreshAppend(log, Displaced(s), n.key);
      SessionsAdd(t.sessions - {s}, log + [Displaced(s)], e, Opened(n, login), n.end);
      LogInParts(log, Displaced(s), [e]);
    } else {
      assert Without(t.sessions, cookie) == t.sessions;
      SessionsAdd(t.sessions, log, e, Opened(n, login), n.end);
    }
  }

  lemma CallbackKeepsSessions(required: string, t: Tables, log: seq<Event>, r: Request, n: Turn)
    requires SessionsKept(t.sessions, log, n.end) && FreshKey(log, n.key)
    ensures var x := Callback(required, t, r, n); SessionsKept(x.tables.sessions, log + x.events, n.end)
  {
    hide SessionsKept;
    hide FreshKey;
    hide FinishLogin;
    hide SignIn;
    NothingLogged(log);
    if Present(t.flows, r.flowCookie) {
      var f := r.flowCookie.value;
      var taken, login := t.(flows := t.flows - {f}), FinishLogin(required, t.flows[f], n);
      SessionsMore(t.sessions, log, [Consumed(f)], n.end, n.end);
      FreshAppend(log, Consumed(f), n.key);
      if login.Some? && |t.sessions| < MAX_SESSIONS {
        SignInKeepsSessions(taken, log + [Consumed(f)], f, r.sessionCookie, n, login.value);
        LogInParts(log, Consumed(f), SignIn(taken, f, r.sessionCookie, n, login.value).events);
      }
    }
  }

  // ---------- pending logouts ----------

  lemma LogoutsMore(logouts: map<Key, PendingLogout>, log: seq<Event>, more: seq<Event>, now: nat, later: nat)
    requires LogoutsKept(logouts, log, now) && now <= later && forall e | e in more :: !e.HandedOff?
    ensures LogoutsKept(logouts, log + more, later)
  {
    forall e | e in log + more && LogoutLives(log + more, e, later)
      ensures e.logout in logouts && logouts[e.logout] == PendingLogout(e.logoutExpires, e.provider)
    {
      assert LogoutLives(log, e, now);
    }
  }

  lemma LogoutsDrop(logouts: map<Key, PendingLogout>, log: seq<Event>, l: Key, e: Event, now: nat)
    requires LogoutsKept(logouts, log, now) && (e == Forgotten(l) || (e.Redeemed? && e.logout == l))
    ensures LogoutsKept(logouts - {l}, log + [e], now)
  {
    var left := logouts - {l};
    forall b | b in log + [e] && LogoutLives(log + [e], b, now)
      ensures b.logout in left && left[b.logout] == PendingLogout(b.logoutExpires, b.provider)
    {
      assert e in log + [e];
      assert LogoutLives(log, b, now);
    }
  }

  lemma LogoutsAdd(logouts: map<Key, PendingLogout>, log: seq<Event>, e: Event, now: nat)
    requires LogoutsKept(logouts, log, now) && e.HandedOff? && FreshKey(log, e.logout)
    ensures LogoutsKept(logouts[e.logout := PendingLogout(e.logoutExpires, e.provider)], log + [e], now)
  {
    var more := logouts[e.logout := PendingLogout(e.logoutExpires, e.provider)];
    forall b | b in log + [e] && LogoutLives(log + [e], b, now)
      ensures b.logout in more && more[b.logout] == PendingLogout(b.logoutExpires, b.provider)
    {
      if b != e {
        assert b in log && LogoutLives(log, b, now);
        assert !Draws(b, e.logout);
      }
    }
  }

  lemma LogoutsPruned(t: Tables, log: seq<Event>, now: nat, later: nat)
    requires LogoutsKept(t.logouts, log, now) && now <= later
    ensures LogoutsKept(Prune(t, later).logouts, log, later)
  {
    forall e | e in log && LogoutLives(log, e, later)
      ensures e.logout in Prune(t, later).logouts
           && Prune(t, later).logouts[e.logout] == PendingLogout(e.logoutExpires, e.provider)
    {
      assert LogoutLives(log, e, now);
    }
  }

  lemma HandOffKeepsLogouts(t: Tables, log: seq<Event>, s: Key, cookie: Option<Key>, n: Turn, provider: ProviderLogout)
    requires LogoutsKept(t.logouts, log, n.end) && FreshKey(log, n.key)
    ensures var x := HandOff(t, s, cookie, n, provider); LogoutsKept(x.tables.logouts, log + x.events, n.end)
  {
    hide LogoutsKept;
    var e := HandedOff(n.key, s, n.end, n.end + LOGOUT_SECONDS * SECOND, provider);
    LoneEvent(e);
    if Present(t.logouts, cookie) {
      var l := cookie.value;
      LogoutsDrop(t.logouts, log, l, Forgotten(l), n.end);
      FreshAppend(log, Forgotten(l), n.key);
      LogoutsAdd(t.logouts - {l}, log + [Forgotten(l)], e, n.end);
      LogInParts(log, Forgotten(l), [e]);
    } else {
      assert Without(t.logouts, cookie) == t.logouts;
      LogoutsAdd(t.logouts, log, e, n.end);
    }
  }

  lemma HandOffOnly(t: Tables, s: Key, cookie: Option<Key>, n: Turn, provider: ProviderLogout)
    ensures var x := HandOff(t, s, cookie, n, provider);
            && x.tables.flows == t.flows && x.tables.sessions == t.sessions
            && forall e | e in x.events :: !e.LoggedIn? && !e.Began?
  {
  }

  lemma LogoutKeepsAll(t: Tables, log: seq<Event>, r: Request, n: Turn)
    requires Kept(t, log, n.end) && FreshKey(log, n.key) && Present(t.sessions, r.sessionCookie)
    ensures var x := Logout(t, r, n); Kept(x.tables, log + x.events, n.end)
  {
    hide FlowsKept;
    hide SessionsKept;
    hide LogoutsKept;
    hide FreshKey;
    hide HandOff;
    var s := r.sessionCookie.value;
    var out, log1 := t.(sessions := t.sessions - {s}), log + [LoggedOut(s)];
    SessionsDrop(t.sessions, log, s, LoggedOut(s), n.end);
    FlowsMore(t.flows, log, [LoggedOut(s)], n.end, n.end);
    LogoutsMore(t.logouts, log, [LoggedOut(s)], n.end, n.end);
    FreshAppend(log, LoggedOut(s), n.key);
    if t.sessions[s].providerLogout.Some? && |t.logouts| < MAX_LOGOUTS {
      var provider := t.sessions[s].providerLogout.value;
      var x := HandOff(out, s, r.logoutCookie, n, provider);
      HandOffKeepsLogouts(out, log1, s, r.logoutCookie, n, provider);
      HandOffOnly(out, s, r.logoutCookie, n, provider);
      SessionsMore(out.sessions, log1, x.events, n.end, n.end);
      FlowsMore(out.flows, log1, x.events, n.end, n.end);
      LogInParts(log, LoggedOut(s), x.events);
    }
  }

  // ---------- every request ----------

  predicate Kept(t: Tables, log: seq<Event>, now: nat) {
    FlowsKept(t.flows, log, now) && SessionsKept(t.sessions, log, now) && LogoutsKept(t.logouts, log, now)
  }

  lemma KeptLater(t: Tables, log: seq<Event>, now: nat, later: nat)
    requires Kept(t, log, now) && now <= later
    ensures Kept(t, log, later)
  {
    NothingLogged(log);
    FlowsMore(t.flows, log, [], now, later);
    SessionsMore(t.sessions, log, [], now, later);
    LogoutsMore(t.logouts, log, [], now, later);
    hide FlowsKept;
    hide SessionsKept;
    hide LogoutsKept;
  }

  lemma LoginKeepsAll(t: Tables, log: seq<Event>, r: Request, n: Turn)
    requires Kept(t, log, n.end) && FreshKey(log, n.key)
    ensures var x := Login(t, r, n); Kept(x.tables, log + x.events, n.end)
  {
    hide FlowsKept;
    hide SessionsKept;
    hide LogoutsKept;
    hide FreshKey;
    NothingLogged(log);
    if |t.flows| < MAX_FLOWS && n.discovery.Some? {
      var x := Begin(t, r.flowCookie, n, n.discovery.value);
      BeginKeepsFlows(t, log, r.flowCookie, n, n.discovery.value);
      SessionsMore(t.sessions, log, x.events, n.end, n.end);
      LogoutsMore(t.logouts, log, x.events, n.end, n.end);
    }
  }

  lemma CallbackKeepsAll(required: string, t: Tables, log: seq<Event>, r: Request, n: Turn)
    requires Kept(t, log, n.end) && FreshKey(log, n.key)
    ensures var x := Callback(required, t, r, n); Kept(x.tables, log + x.events, n.end)
  {
    var x := Callback(required, t, r, n);
    CallbackKeepsFlows(required, t, log, r, n);
    CallbackKeepsSessions(required, t, log, r, n);
    CallbackHandsNothingOff(required, t, r, n);
    hide Callback;
    LogoutsMore(t.logouts, log, x.events, n.end, n.end);
    hide FlowsKept;
    hide SessionsKept;
    hide LogoutsKept;
  }

  lemma CallbackHandsNothingOff(required: string, t: Tables, r: Request, n: Turn)
    ensures var x := Callback(required, t, r, n);
            x.tables.logouts == t.logouts && forall e | e in x.events :: !e.HandedOff?
  {
    hide FinishLogin;
    hide SignIn;
    if Present(t.flows, r.flowCookie) {
      var f := r.flowCookie.value;
      var login := FinishLogin(required, t.flows[f], n);
      if login.Some? { SignInHandsNothingOff(t.(flows := t.flows - {f}), f, r.sessionCookie, n, login.value); }
    }
  }

  lemma SignInHandsNothingOff(t: Tables, f: Key, cookie: Option<Key>, n: Turn, login: LoginData)
    ensures var x := SignIn(t, f, cookie, n, login);
            x.tables.logouts == t.logouts && forall e | e in x.events :: !e.HandedOff?
  {
  }

  lemma EndSessionKeepsAll(t: Tables, log: seq<Event>, r: Request, n: Turn)
    requires Kept(t, log, n.end)
    ensures var x := EndSession(t, r, n); Kept(x.tables, log + x.events, n.end)
  {
    hide FlowsKept;
    hide SessionsKept;
    hide LogoutsKept;
    NothingLogged(log);
    if Present(t.logouts, r.logoutCookie) {
      var l := r.logoutCookie.value;
      LogoutsDrop(t.logouts, log, l, Redeemed(l, n.at), n.end);
      FlowsMore(t.flows, log, [Redeemed(l, n.at)], n.end, n.end);
      SessionsMore(t.sessions, log, [Redeemed(l, n.at)], n.end, n.end);
    }
  }

  lemma PrunedKept(required: string, p: Tables, log: seq<Event>, r: Request, n: Turn)
    requires Kept(p, log, n.at) && Proper(log, n.at, n)
    ensures var x := GatePruned(required, p, r, n); Kept(x.tables, log + x.events, n.end)
  {
    hide FreshKey;
    KeptLater(p, log, n.at, n.end);
    NothingLogged(log);
    if r.verb.Get? && r.path.LoginPath? {
      hide Kept;
      LoginKeepsAll(p, log, r, n);
      hide Login;
    } else if r.verb.Get? && r.path.CallbackPath? {
      hide Kept;
      CallbackKeepsAll(required, p, log, r, n);
      hide Callback;
    } else if r.verb.Get? && r.path.EndSessionPath? {
      hide Kept;
      EndSessionKeepsAll(p, log, r, n);
      hide EndSession;
    } else if r.path.LogoutPath? && r.verb.Post? {
      hide Kept;
      if Present(p.sessions, r.sessionCookie) { LogoutKeepsAll(p, log, r, n); }
      hide Logout;
    } else {
      var x := GatePruned(required, p, r, n);
      assert x.tables == p && forall e | e in x.events :: e.Passed?;
      FlowsMore(p.flows, log, x.events, n.at, n.end);
      SessionsMore(p.sessions, log, x.events, n.at, n.end);
      LogoutsMore(p.logouts, log, x.events, n.at, n.end);
      hide FlowsKept;
      hide SessionsKept;
      hide LogoutsKept;
    }
  }

  lemma GateKept(required: string, t: Tables, log: seq<Event>, now: nat, r: Request, n: Turn)
    requires Kept(t, log, now) && Proper(log, now, n)
    ensures var x := Gate(required, t, r, n); Kept(x.tables, log + x.events, n.end)
  {
    FlowsPruned(t, log, now, n.at);
    SessionsPruned(t, log, now, n.at);
    LogoutsPruned(t, log, now, n.at);
    hide FlowsKept;
    hide SessionsKept;
    hide LogoutsKept;
    PrunedKept(required, Prune(t, n.at), log, r, n);
  }

  lemma {:induction false} RunKept(required: string, t: Tables, log: seq<Event>, now: nat, run: seq<Exchange>)
    requires Kept(t, log, now) && Plausible(required, t, log, now, run)
    ensures var (t', log', now') := Served(required, t, log, now, run); Kept(t', log', now')
    decreases |run|
  {
    if run != [] {
      var x := Gate(required, t, run[0].request, run[0].turn);
      GateKept(required, t, log, now, run[0].request, run[0].turn);
      hide Kept;
      hide Gate;
      RunKept(required, x.tables, log + x.events, run[0].turn.end, run[1..]);
    }
  }

  lemma ReachedKept(required: string, t: Tables, log: seq<Event>, now: nat)
    requires Reached(required, t, log, now)
    ensures Consistent(required, t, log, now) && Kept(t, log, now)
  {
    ReachedConsistent(required, t, log, now);
    hide Consistent;
    var start: nat, run :|
      Plausible(required, NoTables, [], start, run) && Served(required, NoTables, [], start, run) == (t, log, now);
    assert Kept(NoTables, [], start);
    hide Kept;
    hide Plausible;
    hide Served;
    RunKept(required, NoTables, [], start, run);
  }
}
