/** What holds of the tables over every run of requests: each entry descends from one
    consumed login flow, tokens are single-use, the tables stay bounded, and whatever the
    gate passes on belongs to a live session of an authorised login. */
module AuthRuns {
  import opened Octets
  import opened Groups
  import opened AuthModel

  // ---------- the history on its own ----------

  /** Keys an event draws from the random source. */
  predicate Draws(e: Event, k: Key) {
    (e.Began? && e.flow == k) || (e.LoggedIn? && e.session == k) || (e.HandedOff? && e.logout == k)
  }

  predicate FreshKey(log: seq<Event>, k: Key) {
    forall e | e in log :: !Draws(e, k)
  }

  lemma FreshAppend(log: seq<Event>, e: Event, k: Key)
    requires FreshKey(log, k) && !Draws(e, k)
    ensures FreshKey(log + [e], k)
  {
  }

  /** No session has come of this flow. */
  predicate Unspent(log: seq<Event>, f: Key) {
    forall e | e in log :: !(e.LoggedIn? && e.flow == f)
  }

  lemma UnspentAppend(log: seq<Event>, e: Event, f: Key)
    requires Unspent(log, f) && !(e.LoggedIn? && e.flow == f)
    ensures Unspent(log + [e], f)
  {
  }

  /** No pending logout has come of this session. */
  predicate NotHandedOff(log: seq<Event>, s: Key) {
    forall e | e in log :: !(e.HandedOff? && e.session == s)
  }

  predicate NotRedeemed(log: seq<Event>, l: Key) {
    forall e | e in log :: !(e.Redeemed? && e.logout == l)
  }

  /** Two events no history may hold both of. */
  predicate Clash(a: Event, b: Event) {
    match b
    case Began(f, _, _, _) => a.Began? && a.flow == f
    case Superseded(f) => a.Superseded? && a.flow == f
    case Consumed(f) => a.Consumed? && a.flow == f
    case LoggedIn(s, f, _, _, _, _) => a.LoggedIn? && (a.session == s || a.flow == f)
    case LoggedOut(s) => a.LoggedOut? && a.session == s
    case Displaced(s) => a.Displaced? && a.session == s
    case HandedOff(l, s, _, _, _) => a.HandedOff? && (a.logout == l || a.session == s)
    case Forgotten(l) => a.Forgotten? && a.logout == l
    case Redeemed(l, _) => a.Redeemed? && a.logout == l
    case Passed(_, _) => false
  }

  /** What each event rests on, and what ends a session before it could be passed on. */
  predicate Justified(required: string, log: seq<Event>, e: Event) {
    match e
    case Began(_, at, flowExpires, _) => flowExpires == at + 300 * 1_000_000_000
    case Superseded(f) => exists b | b in log :: b.Began? && b.flow == f
    case Consumed(f) => exists b | b in log :: b.Began? && b.flow == f
    case LoggedIn(_, f, verifiedAt, at, expires, user) =>
      && Consumed(f) in log
      && (exists b | b in log :: b.Began? && b.flow == f && verifiedAt < b.flowExpires)
      && verifiedAt <= at && Granted(required, user)
      && expires == at + Lesser(user.secondsLeft, 3600) * 1_000_000_000
    case LoggedOut(s) => exists b | b in log :: b.LoggedIn? && b.session == s
    case Displaced(s) => exists b | b in log :: b.LoggedIn? && b.session == s
    case HandedOff(_, s, at, logoutExpires, provider) =>
      && LoggedOut(s) in log && logoutExpires == at + 60 * 1_000_000_000
      && exists b | b in log :: b.LoggedIn? && b.session == s && Provides(log, b, Some(provider))
    case Forgotten(l) => exists b | b in log :: b.HandedOff? && b.logout == l
    case Redeemed(l, at) => exists b | b in log :: b.HandedOff? && b.logout == l && b.at <= at < b.logoutExpires
    case Passed(s, at) =>
      && LoggedOut(s) !in log && Displaced(s) !in log
      && exists b | b in log :: b.LoggedIn? && b.session == s && b.at <= at < b.expires
  }

  function Lesser(a: int, b: int): int { if a <= b then a else b }

  /** The provider vouches for a member of the group whose token has time left. */
  predicate Granted(required: string, user: Verified) {
    HasGroup(user.claim, required) && user.secondsLeft > 0
  }

  /** Where the login `e` says its session is to be logged out: with its own identity
      token, at the endpoint its flow began with, if that has one. */
  predicate Provides(log: seq<Event>, e: Event, provider: Option<ProviderLogout>)
    requires e.LoggedIn?
  {
    exists b | b in log ::
      && b.Began? && b.flow == e.flow
      && provider == (if b.endpoint.None? then None else Some(ProviderLogout(b.endpoint.value, e.user.idToken)))
  }

  predicate Sound(required: string, log: seq<Event>) {
    log == [] ||
    var front, e := log[..|log| - 1], log[|log| - 1];
    Sound(required, front) && Justified(required, front, e) && forall a | a in front :: !Clash(a, e)
  }

  lemma SoundAppend(required: string, log: seq<Event>, e: Event)
    requires Sound(required, log) && Justified(required, log, e) && forall a | a in log :: !Clash(a, e)
    ensures Sound(required, log + [e])
  {
    assert (log + [e])[..|log|] == log;
  }

  // ---------- the tables against the history ----------

  predicate FlowBegan(log: seq<Event>, k: Key, flow: Flow) {
    exists b | b in log :: b.Began? && b.flow == k && b.flowExpires == flow.expires && b.endpoint == flow.logoutEndpoint
  }

  lemma FlowBeganLater(log: seq<Event>, more: seq<Event>, k: Key, flow: Flow)
    requires FlowBegan(log, k, flow)
    ensures FlowBegan(log + more, k, flow)
  {
    var b :| b in log && b.Began? && b.flow == k && b.flowExpires == flow.expires && b.endpoint == flow.logoutEndpoint;
    assert b in log + more;
  }

  predicate FlowOk(log: seq<Event>, k: Key, flow: Flow) {
    && FlowBegan(log, k, flow)
    && Consumed(k) !in log && Superseded(k) !in log
    && Unspent(log, k)
  }

  /** What a session in its table says is what its login said. */
  predicate Mirrors(log: seq<Event>, e: Event, session: Session)
    requires e.LoggedIn?
  {
    && e.expires == session.expires && e.user.username == session.username
    && Provides(log, e, session.providerLogout)
  }

  predicate SessionOk(log: seq<Event>, k: Key, session: Session, now: nat) {
    && (exists e | e in log :: e.LoggedIn? && e.session == k && e.at <= now && Mirrors(log, e, session))
    && LoggedOut(k) !in log && Displaced(k) !in log
    && NotHandedOff(log, k)
  }

  predicate LogoutOk(log: seq<Event>, k: Key, pending: PendingLogout, now: nat) {
    && (exists e | e in log ::
          e.HandedOff? && e.logout == k && e.at <= now && e.logoutExpires == pending.expires && e.provider == pending.provider)
    && NotRedeemed(log, k) && Forgotten(k) !in log
  }

  predicate Bounded(t: Tables) {
    |t.flows| <= MAX_FLOWS && |t.sessions| <= MAX_SESSIONS && |t.logouts| <= MAX_LOGOUTS
  }

  ghost predicate Consistent(required: string, t: Tables, log: seq<Event>, now: nat) {
    && Sound(required, log)
    && Bounded(t)
    && (forall k | k in t.flows :: FlowOk(log, k, t.flows[k]))
    && (forall k | k in t.sessions :: SessionOk(log, k, t.sessions[k], now))
    && (forall k | k in t.logouts :: LogoutOk(log, k, t.logouts[k], now))
  }

  // ---------- elementary table moves ----------

  ghost predicate Within<V>(small: map<Key, V>, big: map<Key, V>) {
    forall k | k in small :: k in big && small[k] == big[k]
  }

  lemma SmallerMap<V>(small: map<Key, V>, big: map<Key, V>)
    requires Within(small, big)
    ensures |small| <= |big|
  {
    SmallerSet(small.Keys, big.Keys);
  }

  lemma {:induction false} SmallerSet(a: set<Key>, b: set<Key>)
    requires a <= b
    ensures |a| <= |b|
  {
    if a != {} {
      var x :| x in a;
      SmallerSet(a - {x}, b - {x});
    }
  }

  lemma WithoutShrinks<V>(m: map<Key, V>, cookie: Option<Key>)
    ensures Within(Without(m, cookie), m) && |Without(m, cookie)| <= |m|
  {
    SmallerMap(Without(m, cookie), m);
  }

  /** Entries may vanish: by expiry, or replaced through a cookie. */
  lemma Shrink(required: string, t: Tables, t': Tables, log: seq<Event>, now: nat, later: nat)
    requires Consistent(required, t, log, now) && now <= later
    requires Within(t'.flows, t.flows) && Within(t'.sessions, t.sessions) && Within(t'.logouts, t.logouts)
    ensures Consistent(required, t', log, later)
  {
    SmallerMap(t'.flows, t.flows);
    SmallerMap(t'.sessions, t.sessions);
    SmallerMap(t'.logouts, t.logouts);
    hide Provides;
    forall k | k in t'.sessions ensures SessionOk(log, k, t'.sessions[k], later) {
      assert SessionOk(log, k, t.sessions[k], now);
    }
    forall k | k in t'.logouts ensures LogoutOk(log, k, t'.logouts[k], later) {
      assert LogoutOk(log, k, t.logouts[k], now);
    }
  }

  lemma BeganIsSound(required: string, log: seq<Event>, e: Event)
    requires Sound(required, log) && e.Began? && FreshKey(log, e.flow) && e.flowExpires == e.at + 300 * 1_000_000_000
    ensures Sound(required, log + [e])
  {
    hide Sound;
    forall a | a in log ensures !Clash(a, e) {
      assert !Draws(a, e.flow);
    }
    SoundAppend(required, log, e);
  }

  lemma AddFlow(required: string, t: Tables, log: seq<Event>, now: nat, e: Event, flow: Flow)
    requires Consistent(required, t, log, now) && e.Began? && FreshKey(log, e.flow) && |t.flows| < MAX_FLOWS
    requires e.flowExpires == flow.expires == e.at + 300 * 1_000_000_000 && e.endpoint == flow.logoutEndpoint
    ensures Consistent(required, t.(flows := t.flows[e.flow := flow]), log + [e], now)
  {
    FreshFlowOk(required, log, e, flow);
    BeganIsSound(required, log, e);
    Grow(required, t, log, now, e);
    hide Consistent;
    hide FlowOk;
    InsertEntries(required, t, log + [e], now);
  }

  /** Entries in good standing may be inserted. */
  lemma InsertEntries(required: string, t: Tables, log: seq<Event>, now: nat)
    requires Consistent(required, t, log, now)
    ensures forall k, flow | FlowOk(log, k, flow) && |t.flows| < MAX_FLOWS ::
              Consistent(required, t.(flows := t.flows[k := flow]), log, now)
    ensures forall k, session | SessionOk(log, k, session, now) && |t.sessions| < MAX_SESSIONS ::
              Consistent(required, t.(sessions := t.sessions[k := session]), log, now)
    ensures forall k, pending | LogoutOk(log, k, pending, now) && |t.logouts| < MAX_LOGOUTS ::
              Consistent(required, t.(logouts := t.logouts[k := pending]), log, now)
  {
    hide Sound;
    hide FlowOk;
    hide SessionOk;
    hide LogoutOk;
    forall k: Key, flow: Flow | FlowOk(log, k, flow) && |t.flows| < MAX_FLOWS
      ensures Consistent(required, t.(flows := t.flows[k := flow]), log, now)
    {
      assert |t.flows[k := flow]| <= |t.flows| + 1;
    }
    forall k: Key, session: Session | SessionOk(log, k, session, now) && |t.sessions| < MAX_SESSIONS
      ensures Consistent(required, t.(sessions := t.sessions[k := session]), log, now)
    {
      assert |t.sessions[k := session]| <= |t.sessions| + 1;
    }
    forall k: Key, pending: PendingLogout | LogoutOk(log, k, pending, now) && |t.logouts| < MAX_LOGOUTS
      ensures Consistent(required, t.(logouts := t.logouts[k := pending]), log, now)
    {
      assert |t.logouts[k := pending]| <= |t.logouts| + 1;
    }
  }

  lemma FreshFlowOk(required: string, log: seq<Event>, e: Event, flow: Flow)
    requires Sound(required, log) && e.Began? && FreshKey(log, e.flow)
    requires e.flowExpires == flow.expires && e.endpoint == flow.logoutEndpoint
    ensures FlowOk(log + [e], e.flow, flow)
  {
    NeverSession(required, log, e.flow);
    hide Sound;
    hide FreshKey;
    UnspentAppend(log, e, e.flow);
    hide Unspent;
    assert e in log + [e];
  }

  lemma ProvidesLater(log: seq<Event>, more: seq<Event>, e: Event, provider: Option<ProviderLogout>)
    requires e.LoggedIn? && Provides(log, e, provider)
    ensures Provides(log + more, e, provider)
  {
    var b :| b in log && b.Began? && b.flow == e.flow
             && provider == (if b.endpoint.None? then None else Some(ProviderLogout(b.endpoint.value, e.user.idToken)));
    assert b in log + more;
  }

  lemma SessionGrows(log: seq<Event>, k: Key, session: Session, now: nat, e: Event)
    requires SessionOk(log, k, session, now)
    requires (e.LoggedOut? || e.Displaced? || e.HandedOff?) ==> e.session != k
    ensures SessionOk(log + [e], k, session, now)
  {
    var b :| b in log && b.LoggedIn? && b.session == k && b.at <= now && Mirrors(log, b, session);
    ProvidesLater(log, [e], b, session.providerLogout);
    hide Provides;
    assert b in log + [e] && Mirrors(log + [e], b, session);
  }

  lemma LogoutGrows(log: seq<Event>, k: Key, pending: PendingLogout, now: nat, e: Event)
    requires LogoutOk(log, k, pending, now)
    requires (e.Redeemed? || e.Forgotten?) ==> e.logout != k
    ensures LogoutOk(log + [e], k, pending, now)
  {
    var b :| b in log && b.HandedOff? && b.logout == k && b.at <= now
             && b.logoutExpires == pending.expires && b.provider == pending.provider;
    assert b in log + [e];
  }

  lemma FlowGrows(log: seq<Event>, k: Key, flow: Flow, e: Event)
    requires FlowOk(log, k, flow)
    requires (e.Consumed? || e.Superseded? || e.LoggedIn?) ==> e.flow != k
    ensures FlowOk(log + [e], k, flow)
  {
    FlowBeganLater(log, [e], k, flow);
  }

  /** An event that touches no key in the tables keeps every entry's standing. */
  lemma Grow(required: string, t: Tables, log: seq<Event>, now: nat, e: Event)
    requires Consistent(required, t, log, now) && Sound(required, log + [e])
    requires e.Consumed? || e.Superseded? || e.LoggedIn? ==> e.flow !in t.flows
    requires e.LoggedOut? || e.Displaced? || e.HandedOff? ==> e.session !in t.sessions
    requires e.Redeemed? || e.Forgotten? ==> e.logout !in t.logouts
    ensures Consistent(required, t, log + [e], now)
  {
    hide Sound;
    hide FlowOk;
    hide SessionOk;
    hide LogoutOk;
    forall k | k in t.flows ensures FlowOk(log + [e], k, t.flows[k]) {
      FlowGrows(log, k, t.flows[k], e);
    }
    forall k | k in t.sessions ensures SessionOk(log + [e], k, t.sessions[k], now) {
      SessionGrows(log, k, t.sessions[k], now, e);
    }
    forall k | k in t.logouts ensures LogoutOk(log + [e], k, t.logouts[k], now) {
      LogoutGrows(log, k, t.logouts[k], now, e);
    }
  }

  /** A flow leaves its table for good, consumed or superseded. */
  lemma TakeFlow(required: string, t: Tables, log: seq<Event>, now: nat, k: Key, e: Event)
    requires Consistent(required, t, log, now) && k in t.flows && (e == Consumed(k) || e == Superseded(k))
    ensures Consistent(required, t.(flows := t.flows - {k}), log + [e], now)
    ensures Unspent(log + [e], k)
    ensures FlowBegan(log + [e], k, t.flows[k])
  {
    assert FlowOk(log, k, t.flows[k]);
    assert Justified(required, log, e) && forall a | a in log :: !Clash(a, e);
    SoundAppend(required, log, e);
    Shrink(required, t, t.(flows := t.flows - {k}), log, now, now);
    Grow(required, t.(flows := t.flows - {k}), log, now, e);
    FlowBeganLater(log, [e], k, t.flows[k]);
    hide Consistent;
  }

  lemma LoggedInIsSound(required: string, log: seq<Event>, e: Event)
    requires Sound(required, log) && e.LoggedIn? && FreshKey(log, e.session) && Justified(required, log, e)
    requires Unspent(log, e.flow)
    ensures Sound(required, log + [e])
  {
    hide Sound;
    hide Justified;
    forall a | a in log ensures !Clash(a, e) {
      assert !Draws(a, e.session);
    }
    SoundAppend(required, log, e);
  }

  lemma AddSession(required: string, t: Tables, log: seq<Event>, now: nat, e: Event, session: Session)
    requires Consistent(required, t, log, now) && |t.sessions| < MAX_SESSIONS
    requires e.LoggedIn? && FreshKey(log, e.session) && Justified(required, log, e)
    requires Mirrors(log + [e], e, session) && e.at <= now && e.flow !in t.flows
    requires Unspent(log, e.flow)
    ensures Consistent(required, t.(sessions := t.sessions[e.session := session]), log + [e], now)
  {
    hide Justified;
    hide Unspent;
    hide Mirrors;
    LoggedInIsSound(required, log, e);
    Grow(required, t, log, now, e);
    FreshAppendNever(required, log, e, e.session);
    assert e in log + [e];
    assert SessionOk(log + [e], e.session, session, now);
    hide Consistent;
    hide SessionOk;
    InsertEntries(required, t, log + [e], now);
  }

  /** What a key that was never drawn cannot have been used for. */
  predicate Never(log: seq<Event>, k: Key) {
    && LoggedOut(k) !in log && Displaced(k) !in log && Consumed(k) !in log
    && Superseded(k) !in log && Forgotten(k) !in log
    && Unspent(log, k) && NotHandedOff(log, k) && NotRedeemed(log, k)
  }

  lemma FreshAppendNever(required: string, log: seq<Event>, e: Event, k: Key)
    requires Sound(required, log) && FreshKey(log, k) && e.LoggedIn?
    ensures LoggedOut(k) !in log + [e] && Displaced(k) !in log + [e] && NotHandedOff(log + [e], k)
  {
    NeverSession(required, log, k);
    hide Sound;
    hide FreshKey;
  }

  /** A key never drawn has never been a session, a flow or a handoff. */
  lemma {:induction false} NeverSession(required: string, log: seq<Event>, k: Key)
    requires Sound(required, log) && FreshKey(log, k)
    ensures Never(log, k)
  {
    if log != [] {
      var front, e := log[..|log| - 1], log[|log| - 1];
      assert log == front + [e];
      assert !Draws(e, k);
      NeverSession(required, front, k);
      NeverAppend(required, front, e, k);
    }
  }

  lemma NeverAppend(required: string, log: seq<Event>, e: Event, k: Key)
    requires Never(log, k) && FreshKey(log, k) && Justified(required, log, e) && !Draws(e, k)
    ensures Never(log + [e], k)
  {
    hide Granted;
    hide Provides;
  }

  lemma DropSession(required: string, t: Tables, log: seq<Event>, now: nat, k: Key, e: Event)
    requires Consistent(required, t, log, now) && k in t.sessions
    requires e == LoggedOut(k) || e == Displaced(k)
    ensures Consistent(required, t.(sessions := t.sessions - {k}), log + [e], now)
    ensures NotHandedOff(log + [e], k)
  {
    assert SessionOk(log, k, t.sessions[k], now);
    hide Mirrors;
    assert Justified(required, log, e) && forall a | a in log :: !Clash(a, e);
    SoundAppend(required, log, e);
    Shrink(required, t, t.(sessions := t.sessions - {k}), log, now, now);
    Grow(required, t.(sessions := t.sessions - {k}), log, now, e);
    hide Consistent;
  }

  lemma HandedOffIsSound(required: string, log: seq<Event>, e: Event)
    requires Sound(required, log) && e.HandedOff? && FreshKey(log, e.logout) && NotHandedOff(log, e.session)
    requires Justified(required, log, e)
    ensures Sound(required, log + [e])
  {
    hide Sound;
    hide Justified;
    forall a | a in log ensures !Clash(a, e) {
      assert !Draws(a, e.logout);
    }
    SoundAppend(required, log, e);
  }

  lemma AddLogout(required: string, t: Tables, log: seq<Event>, now: nat, e: Event, pending: PendingLogout)
    requires Consistent(required, t, log, now) && |t.logouts| < MAX_LOGOUTS
    requires e.HandedOff? && FreshKey(log, e.logout) && Justified(required, log, e)
    requires e.session !in t.sessions && NotHandedOff(log, e.session)
    requires e.at <= now && e.logoutExpires == pending.expires && e.provider == pending.provider
    ensures Consistent(required, t.(logouts := t.logouts[e.logout := pending]), log + [e], now)
  {
    hide Justified;
    HandedOffIsSound(required, log, e);
    Grow(required, t, log, now, e);
    FreshLogoutOk(required, log, e, pending, now);
    hide Consistent;
    hide LogoutOk;
    InsertEntries(required, t, log + [e], now);
  }

  lemma FreshLogoutOk(required: string, log: seq<Event>, e: Event, pending: PendingLogout, now: nat)
    requires Sound(required, log) && e.HandedOff? && FreshKey(log, e.logout)
    requires e.at <= now && e.logoutExpires == pending.expires && e.provider == pending.provider
    ensures LogoutOk(log + [e], e.logout, pending, now)
  {
    NeverSession(required, log, e.logout);
    hide Sound;
    hide FreshKey;
    assert e in log + [e];
  }

  /** A pending logout leaves its table for good, redeemed or forgotten. */
  lemma DropLogout(required: string, t: Tables, log: seq<Event>, now: nat, k: Key, e: Event)
    requires Consistent(required, t, log, now) && k in t.logouts
    requires e == Forgotten(k) || (e.Redeemed? && e.logout == k && now <= e.at < t.logouts[k].expires)
    ensures Consistent(required, t.(logouts := t.logouts - {k}), log + [e], now)
  {
    assert LogoutOk(log, k, t.logouts[k], now);
    assert Justified(required, log, e) && forall a | a in log :: !Clash(a, e);
    SoundAppend(required, log, e);
    Shrink(required, t, t.(logouts := t.logouts - {k}), log, now, now);
    Grow(required, t.(logouts := t.logouts - {k}), log, now, e);
  }

  // ---------- every request keeps it ----------

  /** Clock readings in order, and a key never drawn before. */
  predicate Proper(log: seq<Event>, now: nat, n: Turn) {
    now <= n.at <= n.mid <= n.end && FreshKey(log, n.key)
  }

  ghost predicate Keeps(required: string, x: Result, log: seq<Event>, now: nat) {
    Consistent(required, x.tables, log + x.events, now)
  }

  lemma NothingLogged(log: seq<Event>)
    ensures log + [] == log
  {
  }

  lemma LoneEvent(e: Event)
    ensures [] + [e] == [e]
  {
  }

  lemma LoginKeeps(required: string, t: Tables, log: seq<Event>, r: Request, n: Turn)
    requires Consistent(required, t, log, n.end) && FreshKey(log, n.key) && n.mid <= n.end
    ensures Keeps(required, Login(t, r, n), log, n.end)
  {
    hide Consistent;
    hide FreshKey;
    hide Begin;
    NothingLogged(log);
    if |t.flows| < MAX_FLOWS && n.discovery.Some? {
      BeginKeeps(required, t, log, r.flowCookie, n, n.discovery.value);
    }
  }

  lemma BeginKeeps(required: string, t: Tables, log: seq<Event>, cookie: Option<Key>, n: Turn, endpoint: Option<string>)
    requires Consistent(required, t, log, n.end) && FreshKey(log, n.key) && |t.flows| < MAX_FLOWS
    ensures Keeps(required, Begin(t, cookie, n, endpoint), log, n.end)
  {
    hide Consistent;
    hide FreshKey;
    hide Unspent;
    hide FlowBegan;
    var flow := Flow(n.mid + FLOW_SECONDS * SECOND, endpoint);
    var e := Began(n.key, n.mid, flow.expires, endpoint);
    LoneEvent(e);
    if Present(t.flows, cookie) {
      SupersedesFlow(required, t, log, n.end, cookie.value, e, flow);
    } else {
      assert Without(t.flows, cookie) == t.flows;
      AddFlow(required, t, log, n.end, e, flow);
    }
  }

  lemma SupersedesFlow(required: string, t: Tables, log: seq<Event>, now: nat, f: Key, e: Event, flow: Flow)
    requires Consistent(required, t, log, now) && e.Began? && FreshKey(log, e.flow) && |t.flows| < MAX_FLOWS && f in t.flows
    requires e.flowExpires == flow.expires == e.at + 300 * 1_000_000_000 && e.endpoint == flow.logoutEndpoint
    ensures Consistent(required, t.(flows := (t.flows - {f})[e.flow := flow]), log + ([Superseded(f)] + [e]), now)
  {
    hide Consistent;
    hide FreshKey;
    hide FlowBegan;
    hide Unspent;
    var left := t.(flows := t.flows - {f});
    TakeFlow(required, t, log, now, f, Superseded(f));
    SmallerMap(left.flows, t.flows);
    FreshAppend(log, Superseded(f), e.flow);
    AddFlow(required, left, log + [Superseded(f)], now, e, flow);
    LogInParts(log, Superseded(f), [e]);
  }

  /** What a granted login brings to the session table. */
  predicate Vouched(required: string, flow: Flow, login: LoginData) {
    && Granted(required, login.user)
    && login.lifetime == Lesser(login.user.secondsLeft, 3600)
    && login.providerLogout == (if flow.logoutEndpoint.None? then None
                                else Some(ProviderLogout(flow.logoutEndpoint.value, login.user.idToken)))
  }

  lemma FinishLoginGrants(required: string, flow: Flow, n: Turn)
    ensures var login := FinishLogin(required, flow, n);
            && (login.Some? <==> n.mid < flow.expires && n.verdict.Some? && Granted(required, n.verdict.value))
            && (login.Some? ==> Vouched(required, flow, login.value) && login.value.user == n.verdict.value)
  {
    hide HasGroup;
  }

  lemma CallbackKeeps(required: string, t: Tables, log: seq<Event>, r: Request, n: Turn)
    requires Consistent(required, t, log, n.end) && FreshKey(log, n.key) && n.mid <= n.end
    ensures Keeps(required, Callback(required, t, r, n), log, n.end)
  {
    NothingLogged(log);
    hide Consistent;
    hide FreshKey;
    hide Unspent;
    hide FlowBegan;
    hide FinishLogin;
    hide HasGroup;
    hide SignIn;
    if Present(t.flows, r.flowCookie) {
      var f := r.flowCookie.value;
      TakeFlow(required, t, log, n.end, f, Consumed(f));
      FinishLoginGrants(required, t.flows[f], n);
      hide Vouched;
      var login := FinishLogin(required, t.flows[f], n);
      if login.Some? && |t.sessions| < MAX_SESSIONS {
        var taken := t.(flows := t.flows - {f});
        FreshAppend(log, Consumed(f), n.key);
        SignsIn(required, taken, log + [Consumed(f)], r.sessionCookie, f, t.flows[f], n, login.value);
        LogInParts(log, Consumed(f), SignIn(taken, f, r.sessionCookie, n, login.value).events);
      }
    }
  }

  /** All that opening a session takes. */
  predicate MayOpen(required: string, t: Tables, log: seq<Event>, f: Key, flow: Flow, n: Turn, login: LoginData) {
    && |t.sessions| < MAX_SESSIONS && FreshKey(log, n.key)
    && f !in t.flows && Unspent(log, f) && Consumed(f) in log && FlowBegan(log, f, flow)
    && n.mid < flow.expires && n.mid <= n.end && Vouched(required, flow, login)
  }

  lemma GrantIsJustified(required: string, log: seq<Event>, f: Key, flow: Flow, n: Turn, login: LoginData)
    requires Consumed(f) in log && FlowBegan(log, f, flow) && n.mid < flow.expires && n.mid <= n.end
    requires Vouched(required, flow, login)
    ensures Justified(required, log, OpenedBy(f, n, login))
  {
    hide HasGroup;
  }

  lemma OpenedMirrors(required: string, log: seq<Event>, f: Key, flow: Flow, n: Turn, login: LoginData)
    requires FlowBegan(log, f, flow) && Vouched(required, flow, login)
    ensures var e := OpenedBy(f, n, login); Mirrors(log + [e], e, Opened(n, login))
  {
    hide HasGroup;
    FlowBeganLater(log, [OpenedBy(f, n, login)], f, flow);
  }

  lemma OpensSession(required: string, t: Tables, log: seq<Event>, f: Key, flow: Flow, n: Turn, login: LoginData)
    requires Consistent(required, t, log, n.end) && MayOpen(required, t, log, f, flow, n, login)
    ensures Consistent(required, t.(sessions := t.sessions[n.key := Opened(n, login)]), log + [OpenedBy(f, n, login)], n.end)
  {
    hide Consistent;
    hide FreshKey;
    hide Unspent;
    hide FlowBegan;
    hide Vouched;
    hide Justified;
    hide Mirrors;
    GrantIsJustified(required, log, f, flow, n, login);
    OpenedMirrors(required, log, f, flow, n, login);
    AddSession(required, t, log, n.end, OpenedBy(f, n, login), Opened(n, login));
  }

  lemma ReplacesSession(required: string, t: Tables, log: seq<Event>, s: Key, f: Key, flow: Flow, n: Turn, login: LoginData)
    requires Consistent(required, t, log, n.end) && MayOpen(required, t, log, f, flow, n, login) && s in t.sessions
    ensures Consistent(required, t.(sessions := (t.sessions - {s})[n.key := Opened(n, login)]),
                       log + ([Displaced(s)] + [OpenedBy(f, n, login)]), n.end)
  {
    hide Consistent;
    hide FreshKey;
    hide Unspent;
    hide FlowBegan;
    hide Vouched;
    hide Opened;
    hide OpenedBy;
    var left, log2 := t.(sessions := t.sessions - {s}), log + [Displaced(s)];
    DropSession(required, t, log, n.end, s, Displaced(s));
    SmallerMap(left.sessions, t.sessions);
    FreshAppend(log, Displaced(s), n.key);
    UnspentAppend(log, Displaced(s), f);
    FlowBeganLater(log, [Displaced(s)], f, flow);
    OpensSession(required, left, log2, f, flow, n, login);
    LogInParts(log, Displaced(s), [OpenedBy(f, n, login)]);
  }

  /** The signed-in session replaces the one named by the request's cookie. */
  lemma SignsIn(required: string, t: Tables, log: seq<Event>, cookie: Option<Key>, f: Key, flow: Flow, n: Turn, login: LoginData)
    requires Consistent(required, t, log, n.end) && MayOpen(required, t, log, f, flow, n, login)
    ensures Keeps(required, SignIn(t, f, cookie, n, login), log, n.end)
  {
    hide Consistent;
    hide MayOpen;
    hide Opened;
    hide OpenedBy;
    if Present(t.sessions, cookie) {
      ReplacesSession(required, t, log, cookie.value, f, flow, n, login);
    } else {
      assert Without(t.sessions, cookie) == t.sessions;
      OpensSession(required, t, log, f, flow, n, login);
      LoneEvent(OpenedBy(f, n, login));
    }
  }

  lemma LogoutKeeps(required: string, t: Tables, log: seq<Event>, r: Request, n: Turn)
    requires Consistent(required, t, log, n.end) && FreshKey(log, n.key) && Present(t.sessions, r.sessionCookie)
    ensures Keeps(required, Logout(t, r, n), log, n.end)
  {
    var s := r.sessionCookie.value;
    var out, log1 := t.(sessions := t.sessions - {s}), log + [LoggedOut(s)];
    SessionProvides(required, t, log, n.end, s);
    hide Consistent;
    hide FreshKey;
    hide NotHandedOff;
    hide HandOff;
    hide CanHandOff;
    DropSession(required, t, log, n.end, s, LoggedOut(s));
    FreshAppend(log, LoggedOut(s), n.key);
    if t.sessions[s].providerLogout.Some? && |t.logouts| < MAX_LOGOUTS {
      var provider := t.sessions[s].providerLogout.value;
      HandOffKeeps(required, out, log1, s, r.logoutCookie, n, provider);
      LogInParts(log, LoggedOut(s), HandOff(out, s, r.logoutCookie, n, provider).events);
    }
  }

  predicate CanHandOff(log: seq<Event>, s: Key, provider: ProviderLogout) {
    LoggedOut(s) in log && exists b | b in log :: b.LoggedIn? && b.session == s && Provides(log, b, Some(provider))
  }

  lemma SessionProvides(required: string, t: Tables, log: seq<Event>, now: nat, s: Key)
    requires Consistent(required, t, log, now) && s in t.sessions
    ensures t.sessions[s].providerLogout.Some? ==> CanHandOff(log + [LoggedOut(s)], s, t.sessions[s].providerLogout.value)
  {
    var session := t.sessions[s];
    assert SessionOk(log, s, session, now);
    hide Consistent;
    if session.providerLogout.Some? {
      var e :| e in log && e.LoggedIn? && e.session == s && e.at <= now && Mirrors(log, e, session);
      ProvidesLater(log, [LoggedOut(s)], e, session.providerLogout);
      hide Provides;
      assert e in log + [LoggedOut(s)];
    }
  }

  lemma CanHandOffLater(log: seq<Event>, more: seq<Event>, s: Key, provider: ProviderLogout)
    requires CanHandOff(log, s, provider)
    ensures CanHandOff(log + more, s, provider)
  {
    var b :| b in log && b.LoggedIn? && b.session == s && Provides(log, b, Some(provider));
    ProvidesLater(log, more, b, Some(provider));
    assert b in log + more;
  }

  lemma HandOffIsJustified(required: string, log: seq<Event>, e: Event)
    requires e.HandedOff? && CanHandOff(log, e.session, e.provider) && e.logoutExpires == e.at + LOGOUT_SECONDS * SECOND
    ensures Justified(required, log, e)
  {
    hide Provides;
  }

  lemma ForgetsLogout(required: string, t: Tables, log: seq<Event>, now: nat, l: Key, e: Event, pending: PendingLogout)
    requires Consistent(required, t, log, now) && |t.logouts| < MAX_LOGOUTS && l in t.logouts
    requires e.HandedOff? && FreshKey(log, e.logout) && CanHandOff(log, e.session, e.provider)
    requires e.session !in t.sessions && NotHandedOff(log, e.session) && e.logoutExpires == e.at + LOGOUT_SECONDS * SECOND
    requires e.at <= now && e.logoutExpires == pending.expires && e.provider == pending.provider
    ensures Consistent(required, t.(logouts := (t.logouts - {l})[e.logout := pending]), log + ([Forgotten(l)] + [e]), now)
  {
    hide Consistent;
    hide FreshKey;
    hide CanHandOff;
    hide Justified;
    var left, log2 := t.(logouts := t.logouts - {l}), log + [Forgotten(l)];
    DropLogout(required, t, log, now, l, Forgotten(l));
    SmallerMap(left.logouts, t.logouts);
    FreshAppend(log, Forgotten(l), e.logout);
    CanHandOffLater(log, [Forgotten(l)], e.session, e.provider);
    HandOffIsJustified(required, log2, e);
    AddLogout(required, left, log2, now, e, pending);
    LogInParts(log, Forgotten(l), [e]);
  }

  lemma HandOffKeeps(required: string, t: Tables, log: seq<Event>, s: Key, cookie: Option<Key>, n: Turn, provider: ProviderLogout)
    requires Consistent(required, t, log, n.end) && |t.logouts| < MAX_LOGOUTS && FreshKey(log, n.key)
    requires CanHandOff(log, s, provider) && s !in t.sessions && NotHandedOff(log, s)
    ensures Keeps(required, HandOff(t, s, cookie, n, provider), log, n.end)
  {
    hide Consistent;
    hide FreshKey;
    hide CanHandOff;
    hide Justified;
    var pending := PendingLogout(n.end + LOGOUT_SECONDS * SECOND, provider);
    var e := HandedOff(n.key, s, n.end, pending.expires, provider);
    LoneEvent(e);
    if Present(t.logouts, cookie) {
      ForgetsLogout(required, t, log, n.end, cookie.value, e, pending);
    } else {
      assert Without(t.logouts, cookie) == t.logouts;
      HandOffIsJustified(required, log, e);
      AddLogout(required, t, log, n.end, e, pending);
    }
  }

  lemma PassKeeps(required: string, t: Tables, log: seq<Event>, n: Turn, s: Key)
    requires Consistent(required, t, log, n.at) && s in t.sessions && t.sessions[s].expires > n.at
    ensures Consistent(required, t, log + [Passed(s, n.at)], n.at)
  {
    assert SessionOk(log, s, t.sessions[s], n.at);
    assert Justified(required, log, Passed(s, n.at));
    SoundAppend(required, log, Passed(s, n.at));
    Grow(required, t, log, n.at, Passed(s, n.at));
  }

  lemma GateKeeps(required: string, t: Tables, log: seq<Event>, now: nat, r: Request, n: Turn)
    requires Consistent(required, t, log, now) && Proper(log, now, n)
    ensures Keeps(required, Gate(required, t, r, n), log, n.end)
  {
    var p := Prune(t, n.at);
    Shrink(required, t, p, log, now, n.at);
    GatePrunedKeeps(required, p, log, r, n);
  }

  lemma GatePrunedKeeps(required: string, p: Tables, log: seq<Event>, r: Request, n: Turn)
    requires Consistent(required, p, log, n.at) && Proper(log, n.at, n)
    requires forall k | k in p.sessions :: p.sessions[k].expires > n.at
    requires forall k | k in p.logouts :: p.logouts[k].expires > n.at
    ensures Keeps(required, GatePruned(required, p, r, n), log, n.end)
  {
    Shrink(required, p, p, log, n.at, n.end);
    NothingLogged(log);
    hide Consistent;
    hide FreshKey;
    if r.verb.Get? && r.path.LoginPath? {
      LoginKeeps(required, p, log, r, n);
      hide Login;
    } else if r.verb.Get? && r.path.CallbackPath? {
      CallbackKeeps(required, p, log, r, n);
      hide Callback;
    } else if r.verb.Get? && r.path.EndSessionPath? {
      if Present(p.logouts, r.logoutCookie) {
        var l := r.logoutCookie.value;
        DropLogout(required, p, log, n.at, l, Redeemed(l, n.at));
        var left := p.(logouts := p.logouts - {l});
        Shrink(required, left, left, log + [Redeemed(l, n.at)], n.at, n.end);
      }
    } else if r.path.LogoutPath? && r.verb.Post? {
      if Present(p.sessions, r.sessionCookie) { LogoutKeeps(required, p, log, r, n); }
      hide Logout;
    } else if GatePruned(required, p, r, n).reply.PassOn? {
      var s := r.sessionCookie.value;
      PassKeeps(required, p, log, n, s);
      Shrink(required, p, p, log + [Passed(s, n.at)], n.at, n.end);
    }
  }

  // ---------- runs ----------

  datatype Exchange = Exchange(request: Request, turn: Turn)

  predicate Plausible(required: string, t: Tables, log: seq<Event>, now: nat, run: seq<Exchange>)
    decreases |run|
  {
    run == [] ||
    var x := Gate(required, t, run[0].request, run[0].turn);
    Proper(log, now, run[0].turn) && Plausible(required, x.tables, log + x.events, run[0].turn.end, run[1..])
  }

  /** Tables, history and clock after serving a run of requests. */
  function Served(required: string, t: Tables, log: seq<Event>, now: nat, run: seq<Exchange>): (Tables, seq<Event>, nat)
    decreases |run|
  {
    if run == [] then (t, log, now)
    else
      var x := Gate(required, t, run[0].request, run[0].turn);
      Served(required, x.tables, log + x.events, run[0].turn.end, run[1..])
  }

  lemma {:induction false} RunKeeps(required: string, t: Tables, log: seq<Event>, now: nat, run: seq<Exchange>)
    requires Consistent(required, t, log, now) && Plausible(required, t, log, now, run)
    ensures var (t', log', now') := Served(required, t, log, now, run);
            Consistent(required, t', log', now') && log <= log'
    decreases |run|
  {
    if run != [] {
      var x := Gate(required, t, run[0].request, run[0].turn);
      GateKeeps(required, t, log, now, run[0].request, run[0].turn);
      hide Consistent;
      hide Gate;
      RunKeeps(required, x.tables, log + x.events, run[0].turn.end, run[1..]);
    }
  }

  /** The tables, history and clock some run of the agent reaches. */
  ghost predicate Reached(required: string, t: Tables, log: seq<Event>, now: nat) {
    exists start: nat, run ::
      Plausible(required, NoTables, [], start, run) && Served(required, NoTables, [], start, run) == (t, log, now)
  }

  lemma ReachedConsistent(required: string, t: Tables, log: seq<Event>, now: nat)
    requires Reached(required, t, log, now)
    ensures Consistent(required, t, log, now)
  {
    var start: nat, run :|
      Plausible(required, NoTables, [], start, run) && Served(required, NoTables, [], start, run) == (t, log, now);
    assert Consistent(required, NoTables, [], start);
    RunKeeps(required, NoTables, [], start, run);
  }

  // ---------- main results ----------

  /** The tables never exceed 64 flows, 128 sessions and 128 pending logouts. */
  lemma AlwaysBounded(required: string, t: Tables, log: seq<Event>, now: nat)
    requires Reached(required, t, log, now)
    ensures |t.flows| <= 64 && |t.sessions| <= 128 && |t.logouts| <= 128
  {
    ReachedConsistent(required, t, log, now);
  }

  lemma {:induction false} SoundAt(required: string, log: seq<Event>, i: nat)
    requires Sound(required, log) && i < |log|
    ensures Sound(required, log[..i]) && Justified(required, log[..i], log[i])
    ensures forall a | a in log[..i] :: !Clash(a, log[i])
  {
    if i == |log| - 1 {
      assert log[..i] == log[..|log| - 1];
    } else {
      SoundAt(required, log[..|log| - 1], i);
      assert log[..|log| - 1][..i] == log[..i];
    }
  }

  /** Single use: over a whole run a flow is consumed at most once and yields at most one
      session; a session is logged out at most once and yields at most one handoff; and a
      handoff is redeemed at most once. */
  lemma AlwaysSingleUse(required: string, t: Tables, log: seq<Event>, now: nat, i: nat, j: nat)
    requires Reached(required, t, log, now) && i < j < |log|
    ensures log[i].Consumed? && log[j].Consumed? ==> log[i].flow != log[j].flow
    ensures log[i].LoggedIn? && log[j].LoggedIn? ==> log[i].flow != log[j].flow && log[i].session != log[j].session
    ensures log[i].LoggedOut? && log[j].LoggedOut? ==> log[i].session != log[j].session
    ensures log[i].HandedOff? && log[j].HandedOff? ==> log[i].session != log[j].session && log[i].logout != log[j].logout
    ensures log[i].Redeemed? && log[j].Redeemed? ==> log[i].logout != log[j].logout
  {
    ReachedConsistent(required, t, log, now);
    SoundAt(required, log, j);
    assert log[i] in log[..j];
  }

  /** Every session and every pending logout descends from one consumed login flow whose
      claim granted access. */
  predicate Descends(required: string, log: seq<Event>, s: Key, f: Key) {
    && (exists e | e in log :: e.LoggedIn? && e.session == s && e.flow == f && Granted(required, e.user))
    && Consumed(f) in log
    && (exists b | b in log :: b.Began? && b.flow == f)
  }

  lemma LoggedInDescends(required: string, log: seq<Event>, e: Event)
    requires Sound(required, log) && e in log && e.LoggedIn?
    ensures Descends(required, log, e.session, e.flow)
  {
    var i :| 0 <= i < |log| && log[i] == e;
    SoundAt(required, log, i);
    var b :| b in log[..i] && b.Began? && b.flow == e.flow;
    assert b in log && Consumed(e.flow) in log;
  }

  lemma SessionOfLogout(required: string, log: seq<Event>, e: Event) returns (login: Event)
    requires Sound(required, log) && e in log && (e.LoggedOut? || e.HandedOff?)
    ensures login in log && login.LoggedIn? && login.session == e.session
    ensures LoggedOut(e.session) in log
  {
    var i :| 0 <= i < |log| && log[i] == e;
    SoundAt(required, log, i);
    var k := i;
    if e.HandedOff? {
      k :| 0 <= k < i && log[..i][k] == LoggedOut(e.session);
      SoundAt(required, log, k);
      assert log[k] == LoggedOut(e.session);
    }
    login :| login in log[..k] && login.LoggedIn? && login.session == e.session;
  }

  /** The pending logout `l` came of the session `s`. */
  predicate Handed(log: seq<Event>, l: Key, s: Key) {
    exists e | e in log :: e.HandedOff? && e.logout == l && e.session == s
  }

  lemma AlwaysDescends(required: string, t: Tables, log: seq<Event>, now: nat)
    requires Reached(required, t, log, now)
    ensures forall s | s in t.sessions :: exists f :: Descends(required, log, s, f)
    ensures forall l | l in t.logouts :: exists s, f :: Handed(log, l, s) && Descends(required, log, s, f)
  {
    ReachedConsistent(required, t, log, now);
    forall s | s in t.sessions ensures exists f :: Descends(required, log, s, f) {
      assert SessionOk(log, s, t.sessions[s], now);
      var e :| e in log && e.LoggedIn? && e.session == s;
      LoggedInDescends(required, log, e);
    }
    forall l | l in t.logouts ensures exists s, f :: Handed(log, l, s) && Descends(required, log, s, f) {
      assert LogoutOk(log, l, t.logouts[l], now);
      var e :| e in log && e.HandedOff? && e.logout == l;
      var login := SessionOfLogout(required, log, e);
      LoggedInDescends(required, log, login);
    }
  }

  /** One login never has its token in both tables: a session and a pending logout always
      descend from different flows. */
  lemma NeverInBothTables(required: string, t: Tables, log: seq<Event>, now: nat, s: Key, l: Key, out: Key, f: Key, g: Key)
    requires Reached(required, t, log, now) && s in t.sessions && l in t.logouts
    requires Handed(log, l, out) && Descends(required, log, s, f) && Descends(required, log, out, g)
    ensures f != g
  {
    hide Reached;
    hide Descends;
    ReachedConsistent(required, t, log, now);
    assert SessionOk(log, s, t.sessions[s], now);
    var e :| e in log && e.HandedOff? && e.logout == l && e.session == out;
    var _ := SessionOfLogout(required, log, e);
    assert LoggedOut(out) in log;
    if f == g { OneSessionPerFlow(required, t, log, now, s, out, f); }
  }

  lemma OneSessionPerFlow(required: string, t: Tables, log: seq<Event>, now: nat, s: Key, out: Key, f: Key)
    requires Reached(required, t, log, now) && Descends(required, log, s, f) && Descends(required, log, out, f)
    ensures s == out
  {
    hide Reached;
    hide HasGroup;
    var a :| a in log && a.LoggedIn? && a.session == s && a.flow == f;
    var b :| b in log && b.LoggedIn? && b.session == out && b.flow == f;
    var i, j :| 0 <= i < |log| && 0 <= j < |log| && log[i] == a && log[j] == b;
    if i < j {
      AlwaysSingleUse(required, t, log, now, i, j);
    } else if j < i {
      AlwaysSingleUse(required, t, log, now, j, i);
    }
  }

  /** A session lives exactly as long as its token had left when it was verified, and at
      most an hour, from its creation; its login was verified within five minutes of the
      start of its flow, and it never outlives its token by more than the time between
      those two readings of the clock. */
  lemma AlwaysTimely(required: string, t: Tables, log: seq<Event>, now: nat, j: nat)
    requires Reached(required, t, log, now) && j < |log| && log[j].LoggedIn?
    ensures var e := log[j];
            && e.user.secondsLeft > 0 && HasGroup(e.user.claim, required)
            && e.expires == e.at + (if e.user.secondsLeft <= 3600 then e.user.secondsLeft else 3600) * 1_000_000_000
            && e.expires <= e.verifiedAt + e.user.secondsLeft * 1_000_000_000 + (e.at - e.verifiedAt)
            && exists i: nat | i < j ::
                 log[i].Began? && log[i].flow == e.flow && e.verifiedAt < log[i].at + 300 * 1_000_000_000
  {
    ReachedConsistent(required, t, log, now);
    hide Reached;
    hide HasGroup;
    SoundAt(required, log, j);
    var b :| b in log[..j] && b.Began? && b.flow == log[j].flow && log[j].verifiedAt < b.flowExpires;
    var i: nat :| i < j && log[..j][i] == b;
    SoundAt(required, log, i);
  }

  /** A pending logout is redeemed within a minute of its session's end, with the identity
      token of the login that session came of. */
  lemma AlwaysRedeemedInTime(required: string, t: Tables, log: seq<Event>, now: nat, j: nat)
    requires Reached(required, t, log, now) && j < |log| && log[j].Redeemed?
    ensures exists i: nat, k: nat | k < i < j ::
              && log[i].HandedOff? && log[i].logout == log[j].logout
              && log[i].at <= log[j].at < log[i].at + 60 * 1_000_000_000
              && log[k].LoggedIn? && log[k].session == log[i].session
              && log[i].provider.idToken == log[k].user.idToken
  {
    ReachedConsistent(required, t, log, now);
    RedeemedRestsOn(required, log, j);
    hide *;
    var i: nat :| i < j && log[i].HandedOff? && log[i].logout == log[j].logout
                  && log[i].at <= log[j].at < log[i].logoutExpires;
    SoundPrefix(required, t, log, now);
    HandedOffRestsOn(required, log, i);
    var k: nat :| k < i && log[k].LoggedIn? && log[k].session == log[i].session
                  && log[i].provider.idToken == log[k].user.idToken;
  }

  lemma SoundPrefix(required: string, t: Tables, log: seq<Event>, now: nat)
    requires Consistent(required, t, log, now)
    ensures Sound(required, log)
  {
  }

  lemma RedeemedRestsOn(required: string, log: seq<Event>, j: nat)
    requires Sound(required, log) && j < |log| && log[j].Redeemed?
    ensures exists i: nat | i < j ::
              log[i].HandedOff? && log[i].logout == log[j].logout && log[i].at <= log[j].at < log[i].logoutExpires
  {
    SoundAt(required, log, j);
    hide Sound;
    var b :| b in log[..j] && b.HandedOff? && b.logout == log[j].logout && b.at <= log[j].at < b.logoutExpires;
    var i: nat :| i < j && log[..j][i] == b;
  }

  lemma HandedOffRestsOn(required: string, log: seq<Event>, i: nat)
    requires Sound(required, log) && i < |log| && log[i].HandedOff?
    ensures log[i].logoutExpires == log[i].at + 60 * 1_000_000_000
    ensures exists k: nat | k < i ::
              log[k].LoggedIn? && log[k].session == log[i].session && log[i].provider.idToken == log[k].user.idToken
  {
    SoundAt(required, log, i);
    hide Sound;
    var e :| e in log[..i] && e.LoggedIn? && e.session == log[i].session && Provides(log[..i], e, Some(log[i].provider));
    var k: nat :| k < i && log[..i][k] == e;
  }

  /** Whatever the gate passes on carries a session created by an earlier callback whose
      claim grants the required group, not logged out or displaced since and not expired. */
  lemma PassedOnlyWithLiveSession(required: string, t: Tables, log: seq<Event>, now: nat, j: nat)
    requires Reached(required, t, log, now) && j < |log| && log[j].Passed?
    ensures exists i: nat | i < j ::
              && log[i].LoggedIn? && log[i].session == log[j].session
              && log[i].at <= log[j].at < log[i].expires <= log[i].at + 3600 * 1_000_000_000
              && HasGroup(log[i].user.claim, required)
              && forall k | 0 <= k < j :: log[k] != LoggedOut(log[j].session) && log[k] != Displaced(log[j].session)
  {
    ReachedConsistent(required, t, log, now);
    SoundPrefix(required, t, log, now);
    PassedRestsOn(required, log, j);
    hide *;
    var i: nat :| i < j && log[i].LoggedIn? && log[i].session == log[j].session && log[i].at <= log[j].at < log[i].expires;
    LoggedInRestsOn(required, log, i);
  }

  lemma PassedRestsOn(required: string, log: seq<Event>, j: nat)
    requires Sound(required, log) && j < |log| && log[j].Passed?
    ensures exists i: nat | i < j ::
              log[i].LoggedIn? && log[i].session == log[j].session && log[i].at <= log[j].at < log[i].expires
    ensures forall k | 0 <= k < j :: log[k] != LoggedOut(log[j].session) && log[k] != Displaced(log[j].session)
  {
    SoundAt(required, log, j);
    hide Sound;
    var b :| b in log[..j] && b.LoggedIn? && b.session == log[j].session && b.at <= log[j].at < b.expires;
    var i: nat :| i < j && log[..j][i] == b;
    forall k | 0 <= k < j ensures log[k] != LoggedOut(log[j].session) && log[k] != Displaced(log[j].session) {
      assert log[k] == log[..j][k];
    }
  }

  lemma LoggedInRestsOn(required: string, log: seq<Event>, i: nat)
    requires Sound(required, log) && i < |log| && log[i].LoggedIn?
    ensures HasGroup(log[i].user.claim, required) && log[i].expires <= log[i].at + 3600 * 1_000_000_000
  {
    SoundAt(required, log, i);
    hide Sound;
    hide HasGroup;
  }
}
