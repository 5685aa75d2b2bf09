/** The main results about the gate: in every run, each request is answered and recorded
    exactly as the history of the earlier ones demands. */
module AuthExact {
  import opened Octets
  import opened Groups
  import opened AuthModel
  import opened AuthRuns
  import opened AuthLive

  predicate LiveFlow(log: seq<Event>, f: Key, now: nat) {
    exists e | e in log :: FlowLives(log, e, now) && e.flow == f
  }

  predicate LiveSession(log: seq<Event>, s: Key, now: nat) {
    exists e | e in log :: SessionLives(log, e, now) && e.session == s
  }

  predicate LiveLogout(log: seq<Event>, l: Key, now: nat) {
    exists e | e in log :: LogoutLives(log, e, now) && e.logout == l
  }

  // ---------- events are unique ----------

  lemma NoTwoClash(required: string, log: seq<Event>, a: Event, b: Event)
    requires Sound(required, log) && a in log && b in log && a != b
    ensures !Clash(a, b) || !Clash(b, a)
  {
    var i, j :| 0 <= i < |log| && 0 <= j < |log| && log[i] == a && log[j] == b;
    if i < j {
      SoundAt(required, log, j);
      assert log[..j][i] == a;
    } else {
      SoundAt(required, log, i);
      assert log[..i][j] == b;
    }
  }

  lemma OneLogin(required: string, log: seq<Event>, a: Event, b: Event)
    requires Sound(required, log) && a in log && b in log && a.LoggedIn? && b.LoggedIn? && a.session == b.session
    ensures a == b
  {
    if a != b { NoTwoClash(required, log, a, b); }
  }

  lemma OneBeginning(required: string, log: seq<Event>, a: Event, b: Event)
    requires Sound(required, log) && a in log && b in log && a.Began? && b.Began? && a.flow == b.flow
    ensures a == b
  {
    if a != b { NoTwoClash(required, log, a, b); }
  }

  // ---------- the tables hold exactly the live entries ----------

  lemma FlowTable(required: string, t: Tables, log: seq<Event>, now: nat, later: nat, f: Key)
    requires Consistent(required, t, log, now) && Kept(t, log, now) && now <= later
    ensures f in Prune(t, later).flows <==> LiveFlow(log, f, later)
    ensures forall e | e in log && FlowLives(log, e, later) ::
              e.flow in Prune(t, later).flows && Prune(t, later).flows[e.flow] == Flow(e.flowExpires, e.endpoint)
  {
    FlowsPruned(t, log, now, later);
    if f in Prune(t, later).flows {
      assert FlowOk(log, f, t.flows[f]);
      var e :| e in log && e.Began? && e.flow == f && e.flowExpires == t.flows[f].expires && e.endpoint == t.flows[f].logoutEndpoint;
      assert FlowLives(log, e, later);
    }
  }

  lemma SessionTable(required: string, t: Tables, log: seq<Event>, now: nat, later: nat, s: Key)
    requires Consistent(required, t, log, now) && Kept(t, log, now) && now <= later
    ensures s in Prune(t, later).sessions <==> LiveSession(log, s, later)
    ensures s in Prune(t, later).sessions ==>
              forall e | e in log && e.LoggedIn? && e.session == s :: Mirrors(log, e, Prune(t, later).sessions[s])
  {
    SessionsPruned(t, log, now, later);
    if s in Prune(t, later).sessions {
      assert SessionOk(log, s, t.sessions[s], now);
      var e :| e in log && e.LoggedIn? && e.session == s && e.at <= now && Mirrors(log, e, t.sessions[s]);
      assert SessionLives(log, e, later);
      forall b | b in log && b.LoggedIn? && b.session == s ensures b == e { OneLogin(required, log, b, e); }
    }
  }

  lemma LogoutTable(required: string, t: Tables, log: seq<Event>, now: nat, later: nat, l: Key)
    requires Consistent(required, t, log, now) && Kept(t, log, now) && now <= later
    ensures l in Prune(t, later).logouts <==> LiveLogout(log, l, later)
    ensures forall e | e in log && LogoutLives(log, e, later) ::
              e.logout in Prune(t, later).logouts
              && Prune(t, later).logouts[e.logout] == PendingLogout(e.logoutExpires, e.provider)
  {
    LogoutsPruned(t, log, now, later);
    if l in Prune(t, later).logouts {
      assert LogoutOk(log, l, t.logouts[l], now);
      var e :| e in log && e.HandedOff? && e.logout == l && e.at <= now
               && e.logoutExpires == t.logouts[l].expires && e.provider == t.logouts[l].provider;
      assert LogoutLives(log, e, later);
    }
  }

  /** In every run and at any later instant, each table, pruned, holds exactly the live
      entries of the history, with what their events say. */
  lemma TablesHoldLiveEntries(required: string, t: Tables, log: seq<Event>, now: nat, later: nat, k: Key)
    requires Reached(required, t, log, now) && now <= later
    ensures k in Prune(t, later).flows <==> LiveFlow(log, k, later)
    ensures k in Prune(t, later).sessions <==> LiveSession(log, k, later)
    ensures k in Prune(t, later).logouts <==> LiveLogout(log, k, later)
    ensures forall e | e in log && SessionLives(log, e, later) ::
              e.session in Prune(t, later).sessions && Mirrors(log, e, Prune(t, later).sessions[e.session])
  {
    ReachedKept(required, t, log, now);
    hide Reached;
    FlowTable(required, t, log, now, later, k);
    SessionTable(required, t, log, now, later, k);
    LogoutTable(required, t, log, now, later, k);
    forall e | e in log && SessionLives(log, e, later)
      ensures e.session in Prune(t, later).sessions && Mirrors(log, e, Prune(t, later).sessions[e.session])
    {
      SessionTable(required, t, log, now, later, e.session);
    }
  }

  // ---------- passing on ----------

  /** Requests the gate does not answer itself. */
  predicate ForTheApplication(r: Request) {
    && !(r.verb.Get? && (r.path.LoginPath? || r.path.CallbackPath? || r.path.EndSessionPath? || r.path.ScriptPath?
                         || r.path.SignedOutPath? || r.path.SessionPath?))
    && !(r.verb.Post? && r.path.LogoutPath?)
  }

  lemma PassOnMeans(required: string, p: Tables, r: Request, n: Turn)
    ensures GatePruned(required, p, r, n).reply.PassOn? <==> ForTheApplication(r) && Present(p.sessions, r.sessionCookie)
  {
    hide FinishLogin;
  }

  /** The gate passes a request on exactly when it is meant for the application and its
      cookie names a session created by a callback and since then neither logged out, nor
      replaced, nor expired. */
  lemma PassesExactlyLiveSessions(required: string, t: Tables, log: seq<Event>, now: nat, r: Request, n: Turn)
    requires Reached(required, t, log, now) && Proper(log, now, n)
    ensures Gate(required, t, r, n).reply.PassOn?
       <==> ForTheApplication(r) && r.sessionCookie.Some? && LiveSession(log, r.sessionCookie.value, n.at)
  {
    hide LiveSession;
    if r.sessionCookie.Some? { TablesHoldLiveEntries(required, t, log, now, n.at, r.sessionCookie.value); }
    hide Reached;
    hide FreshKey;
    PassOnMeans(required, Prune(t, n.at), r, n);
  }

  /** The identity page answers exactly for live sessions, with the name the provider gave
      at their login. */
  lemma NamesExactlyTheUser(required: string, t: Tables, log: seq<Event>, now: nat, r: Request, n: Turn, name: string)
    requires Reached(required, t, log, now) && Proper(log, now, n) && r.verb.Get? && r.path.SessionPath?
    ensures Gate(required, t, r, n).reply == Identity(name)
       <==> r.sessionCookie.Some?
            && exists e | e in log ::
                 SessionLives(log, e, n.at) && e.session == r.sessionCookie.value && e.user.username == name
  {
    if r.sessionCookie.Some? {
      var s := r.sessionCookie.value;
      TablesHoldLiveEntries(required, t, log, now, n.at, s);
      hide Reached;
      hide FreshKey;
      hide Provides;
      if s in Prune(t, n.at).sessions {
        var e :| e in log && SessionLives(log, e, n.at) && e.session == s;
        assert Mirrors(log, e, Prune(t, n.at).sessions[s]);
      }
    }
  }

  // ---------- login ----------

  /** A login begins exactly when fewer than 64 are under way and the provider can be
      reached; it stays open for five minutes. */
  lemma BeginsExactly(required: string, t: Tables, r: Request, n: Turn)
    requires r.verb.Get? && r.path.LoginPath?
    ensures var x := Gate(required, t, r, n);
            && (x.reply.ToProvider? <==> |Prune(t, n.at).flows| < 64 && n.discovery.Some?)
            && (x.reply.ToProvider? ==>
                  && x.events != []
                  && x.events[|x.events| - 1] == Began(n.key, n.mid, n.mid + 300 * 1_000_000_000, n.discovery.value))
            && (!x.reply.ToProvider? ==> x.tables == Prune(t, n.at) && x.events == [])
  {
  }

  /** A callback signs in exactly when its cookie names a live login that has not expired
      by the time the provider vouches for a member of the required group whose token has
      time left, and fewer than 128 sessions are live; the session then lasts as long as
      the token, at most an hour. The login is used up either way. */
  lemma SignsInExactly(required: string, t: Tables, log: seq<Event>, now: nat, r: Request, n: Turn)
    requires Reached(required, t, log, now) && Proper(log, now, n) && r.verb.Get? && r.path.CallbackPath?
    ensures var x, cookie := Gate(required, t, r, n), r.flowCookie;
            && (x.reply.SignedIn?
                <==> && cookie.Some?
                     && (exists e | e in log ::
                           FlowLives(log, e, n.at) && e.flow == cookie.value && n.mid < e.flowExpires)
                     && n.verdict.Some? && HasGroup(n.verdict.value.claim, required)
                     && n.verdict.value.secondsLeft > 0
                     && |Prune(t, n.at).sessions| < 128)
            && (cookie.Some? && LiveFlow(log, cookie.value, n.at) ==> Consumed(cookie.value) in x.events)
            && (x.reply.SignedIn? ==>
                  && x.events != [] && cookie.Some? && n.verdict.Some?
                  && var v := n.verdict.value;
                     x.events[|x.events| - 1]
                     == LoggedIn(n.key, cookie.value, n.mid, n.end,
                                 n.end + (if v.secondsLeft <= 3600 then v.secondsLeft else 3600) * 1_000_000_000, v))
  {
    var p := Prune(t, n.at);
    hide HasGroup;
    hide FreshKey;
    CallbackMeans(required, p, r, n);
    assert Gate(required, t, r, n) == Callback(required, p, r, n) by {
      hide Callback;
    }
    if r.flowCookie.Some? {
      ReachedKept(required, t, log, now);
      FlowTable(required, t, log, now, n.at, r.flowCookie.value);
      hide Reached;
      hide Consistent;
      hide Kept;
      hide Callback;
    }
  }

  lemma CallbackMeans(required: string, p: Tables, r: Request, n: Turn)
    ensures var x, cookie := Callback(required, p, r, n), r.flowCookie;
            && (x.reply.SignedIn?
                <==> && Present(p.flows, cookie) && n.mid < p.flows[cookie.value].expires
                     && n.verdict.Some? && Granted(required, n.verdict.value) && |p.sessions| < 128)
            && (Present(p.flows, cookie) ==> Consumed(cookie.value) in x.events)
            && (x.reply.SignedIn? ==>
                  && x.events != [] && n.verdict.Some?
                  && var v := n.verdict.value;
                     x.events[|x.events| - 1]
                     == LoggedIn(n.key, cookie.value, n.mid, n.end,
                                 n.end + (if v.secondsLeft <= 3600 then v.secondsLeft else 3600) * 1_000_000_000, v))
  {
    if Present(p.flows, r.flowCookie) {
      FinishLoginGrants(required, p.flows[r.flowCookie.value], n);
      hide FinishLogin;
      hide HasGroup;
      hide Displacing;
      hide Without;
    }
  }

  // ---------- logout ----------

  /** A session is logged out exactly by a POST to the logout page that carries the user
      interface's own header and the session's cookie; a logout at the provider is pending
      from then on, for one minute, exactly when the login's flow named an endpoint and
      fewer than 128 are pending. */
  lemma LogsOutExactly(required: string, t: Tables, log: seq<Event>, now: nat, r: Request, n: Turn, s: Key)
    requires Reached(required, t, log, now) && Proper(log, now, n)
    ensures LoggedOut(s) in Gate(required, t, r, n).events
       <==> r.verb.Post? && r.path.LogoutPath? && r.uiHeader && r.sessionCookie == Some(s) && LiveSession(log, s, n.at)
  {
    hide LiveSession;
    TablesHoldLiveEntries(required, t, log, now, n.at, s);
    hide Reached;
    hide FreshKey;
    LogsOutMeans(required, Prune(t, n.at), r, n, s);
  }

  lemma LogsOutMeans(required: string, p: Tables, r: Request, n: Turn, s: Key)
    ensures LoggedOut(s) in GatePruned(required, p, r, n).events
       <==> r.verb.Post? && r.path.LogoutPath? && r.uiHeader && r.sessionCookie == Some(s) && s in p.sessions
  {
    if r.verb.Get? && r.path.CallbackPath? {
      CallbackLogsNobodyOut(required, p, r, n, s);
      hide Callback;
    } else {
      hide Callback;
      hide Superseding;
      hide HandOff;
      HandOffLogsNobodyOut(p, r, n, s);
    }
  }

  lemma CallbackLogsNobodyOut(required: string, p: Tables, r: Request, n: Turn, s: Key)
    ensures LoggedOut(s) !in Callback(required, p, r, n).events
  {
    hide FinishLogin;
  }

  lemma HandOffLogsNobodyOut(p: Tables, r: Request, n: Turn, s: Key)
    ensures forall out, provider, t :: LoggedOut(s) !in HandOff(t, out, r.logoutCookie, n, provider).events
    ensures LoggedOut(s) !in Superseding(p.flows, r.flowCookie)
  {
  }

  lemma HandsOffExactly(required: string, t: Tables, log: seq<Event>, now: nat, r: Request, n: Turn, s: Key, b: Event, e: Event)
    requires Reached(required, t, log, now) && Proper(log, now, n)
    requires LoggedOut(s) in Gate(required, t, r, n).events
    requires e in log && e.LoggedIn? && e.session == s && b in log && b.Began? && b.flow == e.flow
    ensures var x := Gate(required, t, r, n);
            && (x.reply.LogoutAtProvider? <==> b.endpoint.Some? && |Prune(t, n.at).logouts| < 128)
            && (x.reply.LogoutAtProvider? ==>
                  HandedOff(n.key, s, n.end, n.end + 60 * 1_000_000_000,
                            ProviderLogout(b.endpoint.value, e.user.idToken)) in x.events)
  {
    LogsOutMeans(required, Prune(t, n.at), r, n, s);
    ReachedKept(required, t, log, now);
    hide Reached;
    hide FreshKey;
    SessionTable(required, t, log, now, n.at, s);
    hide Kept;
    var session := Prune(t, n.at).sessions[s];
    assert Mirrors(log, e, session);
    var c :| c in log && c.Began? && c.flow == e.flow
             && session.providerLogout == (if c.endpoint.None? then None else Some(ProviderLogout(c.endpoint.value, e.user.idToken)));
    OneBeginning(required, log, b, c);
    hide Consistent;
    hide LiveSession;
    HandOffMeans(required, Prune(t, n.at), r, n, s);
  }

  lemma HandOffMeans(required: string, p: Tables, r: Request, n: Turn, s: Key)
    requires r.verb.Post? && r.path.LogoutPath? && r.uiHeader && r.sessionCookie == Some(s) && s in p.sessions
    ensures var x, provider := GatePruned(required, p, r, n), p.sessions[s].providerLogout;
            && (x.reply.LogoutAtProvider? <==> provider.Some? && |p.logouts| < 128)
            && (x.reply.LogoutAtProvider? ==>
                  HandedOff(n.key, s, n.end, n.end + 60 * 1_000_000_000, provider.value) in x.events)
  {
    hide Forgetting;
    hide Without;
  }

  /** The provider's logout form is handed out exactly for a pending logout, which is used
      up by it, and names the provider recorded when it was handed off. */
  lemma RedeemsExactly(required: string, t: Tables, log: seq<Event>, now: nat, r: Request, n: Turn, provider: ProviderLogout)
    requires Reached(required, t, log, now) && Proper(log, now, n) && r.verb.Get? && r.path.EndSessionPath?
    ensures var x, cookie := Gate(required, t, r, n), r.logoutCookie;
            && (x.reply == LogoutForm(provider)
                <==> cookie.Some?
                     && exists e | e in log ::
                          LogoutLives(log, e, n.at) && e.logout == cookie.value && e.provider == provider)
            && (x.reply == LogoutForm(provider) ==> x.events == [Redeemed(cookie.value, n.at)])
  {
    if r.logoutCookie.Some? {
      ReachedKept(required, t, log, now);
      LogoutTable(required, t, log, now, n.at, r.logoutCookie.value);
      hide Reached;
      hide FreshKey;
      hide Consistent;
      hide Kept;
    }
  }

  // ---------- refusals ----------

  /** Why a request is turned away, in every run: full tables, an unavailable provider, a
      login that does not hold, a missing header or session; and requests without a live
      session are sent to the login page or told to sign in. */
  lemma RefusesExactly(required: string, t: Tables, log: seq<Event>, now: nat, r: Request, n: Turn)
    requires Reached(required, t, log, now) && Proper(log, now, n)
    ensures var reply, p := Gate(required, t, r, n).reply, Prune(t, n.at);
            var live := r.sessionCookie.Some? && LiveSession(log, r.sessionCookie.value, n.at);
            && (reply.TooManyLogins? <==> r.verb.Get? && r.path.LoginPath? && |p.flows| >= 64)
            && (reply.LoginUnavailable? <==> r.verb.Get? && r.path.LoginPath? && |p.flows| < 64 && n.discovery.None?)
            && (reply.SignedIn? || reply.Denied? || reply.SessionLimit? <==> r.verb.Get? && r.path.CallbackPath?)
            && (reply.SessionLimit? ==> |p.sessions| >= 128)
            && (reply.Forbidden? <==> r.verb.Post? && r.path.LogoutPath? && (!r.uiHeader || !live))
            && (reply.SignInRequired?
                <==> !live && (ForTheApplication(r) || (r.verb.Get? && r.path.SessionPath?))
                     && (r.path.SessionPath? || r.path.ApiPath? || !r.verb.Get?))
            && (reply.ToLogin?
                <==> !live && ForTheApplication(r) && r.verb.Get? && !r.path.SessionPath? && !r.path.ApiPath?)
  {
    hide LiveSession;
    if r.sessionCookie.Some? { TablesHoldLiveEntries(required, t, log, now, n.at, r.sessionCookie.value); }
    hide Reached;
    hide FreshKey;
    RefusalMeans(required, Prune(t, n.at), r, n);
  }

  lemma RefusalMeans(required: string, p: Tables, r: Request, n: Turn)
    ensures var reply, live := GatePruned(required, p, r, n).reply, Present(p.sessions, r.sessionCookie);
            && (reply.TooManyLogins? <==> r.verb.Get? && r.path.LoginPath? && |p.flows| >= 64)
            && (reply.LoginUnavailable? <==> r.verb.Get? && r.path.LoginPath? && |p.flows| < 64 && n.discovery.None?)
            && (reply.SignedIn? || reply.Denied? || reply.SessionLimit? <==> r.verb.Get? && r.path.CallbackPath?)
            && (reply.SessionLimit? ==> |p.sessions| >= 128)
            && (reply.Forbidden? <==> r.verb.Post? && r.path.LogoutPath? && (!r.uiHeader || !live))
            && (reply.SignInRequired?
                <==> !live && (ForTheApplication(r) || (r.verb.Get? && r.path.SessionPath?))
                     && (r.path.SessionPath? || r.path.ApiPath? || !r.verb.Get?))
            && (reply.ToLogin?
                <==> !live && ForTheApplication(r) && r.verb.Get? && !r.path.SessionPath? && !r.path.ApiPath?)
  {
    hide FinishLogin;
    hide Without;
  }

  /** Only logins, callbacks, logouts and their redemption change anything but by expiry. */
  lemma OthersChangeNothing(required: string, t: Tables, r: Request, n: Turn)
    requires !(r.verb.Get? && (r.path.LoginPath? || r.path.CallbackPath? || r.path.EndSessionPath?))
    requires !(r.verb.Post? && r.path.LogoutPath?)
    ensures var x := Gate(required, t, r, n);
            && x.tables == Prune(t, n.at)
            && x.events == if x.reply.PassOn? && r.sessionCookie.Some? then [Passed(r.sessionCookie.value, n.at)] else []
  {
  }
}
