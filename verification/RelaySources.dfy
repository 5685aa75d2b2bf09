/** Per-source accounting over whole runs: which addresses are tracked, what their
    counters mean, and what a snapshot shows (crates/core/src/sources.rs as driven by
    crates/core/src/relay.rs). */
module RelaySources {
  import opened Octets
  import opened Config
  import opened Rings
  import opened SourceTable
  import opened RelayModel
  import opened RelayMachine
  import opened RelayLedger

  // ---------- what the history says about one address ----------

  function Seen(arrivals: seq<Arrival>): set<IpAddr> {
    set i | 0 <= i < |arrivals| :: arrivals[i].source
  }

  function From(arrivals: seq<Arrival>, ip: IpAddr): nat {
    if arrivals == [] then 0
    else From(arrivals[..|arrivals| - 1], ip) + if arrivals[|arrivals| - 1].source == ip then 1 else 0
  }

  function RefusedFrom(arrivals: seq<Arrival>, ip: IpAddr): nat {
    if arrivals == [] then 0
    else
      var a := arrivals[|arrivals| - 1];
      RefusedFrom(arrivals[..|arrivals| - 1], ip) + if a.source == ip && a.verdict.Some? then 1 else 0
  }

  function LostFrom(outcomes: seq<Outcome>, ip: IpAddr): nat {
    if outcomes == [] then 0
    else
      var o := outcomes[|outcomes| - 1];
      LostFrom(outcomes[..|outcomes| - 1], ip) + if o.message.source == ip && !o.fate.Forwarded? then 1 else 0
  }

  /** Seconds at which messages of `ip` were forwarded, oldest first. */
  function Ticks(outcomes: seq<Outcome>, ip: IpAddr): seq<nat> {
    if outcomes == [] then []
    else
      var o := outcomes[|outcomes| - 1];
      Ticks(outcomes[..|outcomes| - 1], ip) + if o.message.source == ip && o.fate.Forwarded? then [o.fate.second] else []
  }

  function MessagesFrom(messages: seq<Message>, ip: IpAddr): nat {
    if messages == [] then 0
    else MessagesFrom(messages[..|messages| - 1], ip) + if messages[|messages| - 1].source == ip then 1 else 0
  }

  /** Datagrams from addresses outside `keys`. */
  function Untracked(arrivals: seq<Arrival>, keys: set<IpAddr>): nat {
    if arrivals == [] then 0
    else Untracked(arrivals[..|arrivals| - 1], keys) + if arrivals[|arrivals| - 1].source in keys then 0 else 1
  }

  lemma ArrivalAppend(arrivals: seq<Arrival>, a: Arrival, ip: IpAddr)
    ensures From(arrivals + [a], ip) == From(arrivals, ip) + if a.source == ip then 1 else 0
    ensures RefusedFrom(arrivals + [a], ip) == RefusedFrom(arrivals, ip) + if a.source == ip && a.verdict.Some? then 1 else 0
  {
    assert (arrivals + [a])[..|arrivals|] == arrivals;
  }

  lemma OutcomeAppend(outcomes: seq<Outcome>, o: Outcome, ip: IpAddr)
    ensures LostFrom(outcomes + [o], ip)
         == LostFrom(outcomes, ip) + if o.message.source == ip && !o.fate.Forwarded? then 1 else 0
    ensures Ticks(outcomes + [o], ip)
         == Ticks(outcomes, ip) + if o.message.source == ip && o.fate.Forwarded? then [o.fate.second] else []
  {
    assert (outcomes + [o])[..|outcomes|] == outcomes;
  }

  lemma SeenAppend(arrivals: seq<Arrival>, a: Arrival)
    ensures Seen(arrivals + [a]) == Seen(arrivals) + {a.source}
  {
    var all := arrivals + [a];
    assert all[|arrivals|] == a;
    forall ip | ip in Seen(arrivals) ensures ip in Seen(all) {
      var i :| 0 <= i < |arrivals| && arrivals[i].source == ip;
      assert all[i].source == ip;
    }
  }

  // ---------- which addresses are tracked ----------

  /** `ip` first arrived while fewer than the limit of addresses had been seen. */
  predicate Early(arrivals: seq<Arrival>, ip: IpAddr) {
    exists i | 0 <= i < |arrivals| :: arrivals[i].source == ip && |Seen(arrivals[..i])| < SOURCE_LIMIT
  }

  ghost predicate KeysOk(keys: set<IpAddr>, untracked: nat, arrivals: seq<Arrival>) {
    && |keys| <= SOURCE_LIMIT
    && keys <= Seen(arrivals)
    && (|keys| < SOURCE_LIMIT ==> keys == Seen(arrivals))
    && untracked == Untracked(arrivals, keys)
    && forall ip :: ip in keys <==> Early(arrivals, ip)
  }

  /** The tracked addresses are the early ones, never evicted; the rest are only counted. */
  ghost predicate Tracking(t: Table, arrivals: seq<Arrival>) {
    KeysOk(t.entries.Keys, t.untracked, arrivals)
  }

  lemma EarlyAppend(arrivals: seq<Arrival>, a: Arrival, ip: IpAddr)
    ensures Early(arrivals + [a], ip)
       <==> Early(arrivals, ip) || (a.source == ip && |Seen(arrivals)| < SOURCE_LIMIT)
  {
    var all := arrivals + [a];
    assert forall i | 0 <= i < |arrivals| :: all[i] == arrivals[i] && all[..i] == arrivals[..i];
    assert all[|arrivals|] == a && all[..|arrivals|] == arrivals;
    if Early(arrivals, ip) {
      var i :| 0 <= i < |arrivals| && arrivals[i].source == ip && |Seen(arrivals[..i])| < SOURCE_LIMIT;
      assert all[i].source == ip;
    }
  }

  lemma {:induction false} UntrackedUnseen(arrivals: seq<Arrival>, keys: set<IpAddr>, ip: IpAddr)
    requires ip !in Seen(arrivals)
    ensures Untracked(arrivals, keys + {ip}) == Untracked(arrivals, keys)
    ensures From(arrivals, ip) == 0 && RefusedFrom(arrivals, ip) == 0
    ensures MessagesFrom(Admitted(arrivals), ip) == 0
  {
    if arrivals != [] {
      var front, a := arrivals[..|arrivals| - 1], arrivals[|arrivals| - 1];
      assert arrivals == front + [a];
      SeenAppend(front, a);
      UntrackedUnseen(front, keys, ip);
      assert Admitted(front) + [] == Admitted(front);
      MessagesAppend(Admitted(front), Message(a.payload, a.source), ip);
    }
  }

  lemma UntrackedAppend(arrivals: seq<Arrival>, a: Arrival, keys: set<IpAddr>)
    ensures Untracked(arrivals + [a], keys) == Untracked(arrivals, keys) + if a.source in keys then 0 else 1
  {
    assert (arrivals + [a])[..|arrivals|] == arrivals;
  }

  lemma {:induction false} SubsetSize<T>(a: set<T>, b: set<T>)
    requires a <= b
    ensures |a| <= |b|
  {
    if a != {} {
      var x :| x in a;
      SubsetSize(a - {x}, b - {x});
    }
  }

  /** The tracked set after one more arrival, as the table's limit decides. */
  lemma KeysAppend(keys: set<IpAddr>, untracked: nat, arrivals: seq<Arrival>, a: Arrival)
    requires KeysOk(keys, untracked, arrivals)
    ensures var keys' := if |keys| < SOURCE_LIMIT then keys + {a.source} else keys;
            KeysOk(keys', untracked + (if a.source in keys' then 0 else 1), arrivals + [a])
  {
    var ip, all := a.source, arrivals + [a];
    var keys' := if |keys| < SOURCE_LIMIT then keys + {ip} else keys;
    SubsetSize(keys, Seen(arrivals));
    SeenAppend(arrivals, a);
    UntrackedAppend(arrivals, a, keys');
    forall jp ensures jp in keys' <==> Early(all, jp) { EarlyAppend(arrivals, a, jp); }
    hide Early;
    if ip !in keys && |keys| < SOURCE_LIMIT { UntrackedUnseen(arrivals, keys, ip); }
    assert ip in keys ==> keys + {ip} == keys;
  }

  lemma TrackingReceived(t: Table, arrivals: seq<Arrival>, a: Arrival, allowed: bool)
    requires Tracking(t, arrivals)
    ensures Tracking(Received(t, a.source, allowed), arrivals + [a])
  {
    assert |t.entries.Keys| <= SOURCE_LIMIT;
    hide KeysOk;
    KeysAppend(t.entries.Keys, t.untracked, arrivals, a);
    ReceivedKeys(t, a.source, allowed, t.entries.Keys);
    hide Received;
  }

  lemma ReceivedKeys(t: Table, ip: IpAddr, allowed: bool, keys: set<IpAddr>)
    requires keys == t.entries.Keys && |keys| <= SOURCE_LIMIT
    ensures var t', keys' := Received(t, ip, allowed), if |keys| < SOURCE_LIMIT then keys + {ip} else keys;
            t'.entries.Keys == keys' && t'.untracked == t.untracked + if ip in keys' then 0 else 1
  {
    hide NewSource;
    assert |keys| == |t.entries|;
    if ip in keys { assert keys + {ip} == keys; }
  }

  lemma TrackingSameKeys(t: Table, t': Table, arrivals: seq<Arrival>)
    requires Tracking(t, arrivals) && t'.entries.Keys == t.entries.Keys && t'.untracked == t.untracked
    ensures Tracking(t', arrivals)
  {
  }

  // ---------- what their counters mean ----------

  /** The counters and rings of a tracked source are the tallies of its history. */
  predicate Account(s: SourceState, arrivals: seq<Arrival>, outcomes: seq<Outcome>, ip: IpAddr) {
    && s.received == From(arrivals, ip)
    && s.dropped == RefusedFrom(arrivals, ip) + LostFrom(outcomes, ip)
    && Records(s, Ticks(outcomes, ip))
  }

  predicate Accounts(t: Table, arrivals: seq<Arrival>, outcomes: seq<Outcome>) {
    forall ip | ip in t.entries :: Account(t.entries[ip], arrivals, outcomes, ip)
  }

  lemma MessagesAppend(messages: seq<Message>, m: Message, ip: IpAddr)
    ensures MessagesFrom(messages + [m], ip) == MessagesFrom(messages, ip) + if m.source == ip then 1 else 0
  {
    assert (messages + [m])[..|messages|] == messages;
  }

  lemma {:induction false} MessagesConcat(a: seq<Message>, b: seq<Message>, ip: IpAddr)
    ensures MessagesFrom(a + b, ip) == MessagesFrom(a, ip) + MessagesFrom(b, ip)
  {
    if b == [] {
      assert a + b == a;
    } else {
      var front, m := b[..|b| - 1], b[|b| - 1];
      MessagesConcat(a, front, ip);
      MessagesAppend(a + front, m, ip);
      assert a + b == (a + front) + [m];
    }
  }

  lemma {:induction false} DepartedFrom(outcomes: seq<Outcome>, ip: IpAddr)
    ensures MessagesFrom(Departed(outcomes), ip) == |Ticks(outcomes, ip)| + LostFrom(outcomes, ip)
  {
    if outcomes != [] {
      var front, o := outcomes[..|outcomes| - 1], outcomes[|outcomes| - 1];
      DepartedFrom(front, ip);
      assert Departed(outcomes) == Departed(front) + [o.message];
      MessagesAppend(Departed(front), o.message, ip);
    }
  }

  lemma {:induction false} AdmittedFrom(arrivals: seq<Arrival>, ip: IpAddr)
    ensures From(arrivals, ip) == RefusedFrom(arrivals, ip) + MessagesFrom(Admitted(arrivals), ip)
  {
    if arrivals != [] {
      var front, a := arrivals[..|arrivals| - 1], arrivals[|arrivals| - 1];
      AdmittedFrom(front, ip);
      if a.verdict.None? {
        MessagesAppend(Admitted(front), Message(a.payload, a.source), ip);
      } else {
        assert Admitted(front) + [] == Admitted(front);
      }
    }
  }

  /** An address not seen yet has no history at all. */
  lemma UnseenIsBlank(w: World, ip: IpAddr)
    requires Fifo(w) && ip !in Seen(w.history.arrivals)
    ensures Account(NewSource(true), w.history.arrivals, w.history.outcomes, ip)
    ensures Account(NewSource(false), w.history.arrivals, w.history.outcomes, ip)
  {
    UntrackedUnseen(w.history.arrivals, {}, ip);
    DepartedFrom(w.history.outcomes, ip);
    MessagesConcat(Departed(w.history.outcomes), w.shared.queue, ip);
    assert Ticks(w.history.outcomes, ip) == [];
    assert Minutes([]) == [];
  }

  lemma AccountReceived(s: SourceState, s': SourceState, arrivals: seq<Arrival>, outcomes: seq<Outcome>, a: Arrival)
    requires Account(s, arrivals, outcomes, a.source)
    requires s' == s.(received := s.received + 1, dropped := s.dropped + if a.verdict.Some? then 1 else 0)
    ensures Account(s', arrivals + [a], outcomes, a.source)
  {
    hide Records;
    ArrivalAppend(arrivals, a, a.source);
    RecordsFrame(s, s', Ticks(outcomes, a.source));
  }

  lemma RecordsFrame(s: SourceState, s': SourceState, log: seq<nat>)
    requires Records(s, log) && s'.forwarded == s.forwarded && s'.seconds == s.seconds && s'.minutes == s.minutes
    ensures Records(s', log)
  {
  }

  /** The table after one datagram. */
  function Booked(t: Table, ip: IpAddr, allowed: bool, refused: bool): Table {
    if refused then Dropped(Received(t, ip, allowed), ip) else Received(t, ip, allowed)
  }

  lemma DatagramBooks(u: Setup, w: World, peer: IpAddr, payload: seq<byte>)
    ensures var w', a := OnDatagram(u, w, peer, payload), Heard(u, w, peer, payload);
            && w'.shared.sources == Booked(w.shared.sources, a.source, Allowed(u.config, a.source), a.verdict.Some?)
            && w'.history == w.history.(arrivals := w.history.arrivals + [a])
            && w'.shared.started == w.shared.started && w'.now == w.now
  {
    hide Verdict;
    hide Received;
    hide Dropped;
  }

  lemma AccountsBooked(w: World, a: Arrival, allowed: bool)
    requires Fifo(w) && Accounts(w.shared.sources, w.history.arrivals, w.history.outcomes)
    requires Tracking(w.shared.sources, w.history.arrivals)
    ensures Accounts(Booked(w.shared.sources, a.source, allowed, a.verdict.Some?),
                     w.history.arrivals + [a], w.history.outcomes)
  {
    var ip, arrivals, outcomes := a.source, w.history.arrivals, w.history.outcomes;
    var t, t' := w.shared.sources, Booked(w.shared.sources, ip, allowed, a.verdict.Some?);
    if ip in t'.entries && ip !in t.entries { UnseenIsBlank(w, ip); }
    hide Account;
    hide Fifo;
    hide Tracking;
    hide NewSource;
    forall jp | jp in t'.entries ensures Account(t'.entries[jp], arrivals + [a], outcomes, jp) {
      if jp == ip {
        AccountReceived(if ip in t.entries then t.entries[ip] else NewSource(allowed), t'.entries[ip], arrivals, outcomes, a);
      } else {
        assert t'.entries[jp] == t.entries[jp];
        AccountLater(t.entries[jp], arrivals, outcomes, a, jp);
      }
    }
  }

  lemma AccountLater(s: SourceState, arrivals: seq<Arrival>, outcomes: seq<Outcome>, a: Arrival, ip: IpAddr)
    requires Account(s, arrivals, outcomes, ip) && ip != a.source
    ensures Account(s, arrivals + [a], outcomes, ip)
  {
    hide Records;
    ArrivalAppend(arrivals, a, ip);
  }

  lemma AccountForwarded(s: SourceState, arrivals: seq<Arrival>, outcomes: seq<Outcome>, o: Outcome)
    requires Account(s, arrivals, outcomes, o.message.source) && o.fate.Forwarded?
    ensures Account(Stamped(s, o.fate.second), arrivals, outcomes + [o], o.message.source)
  {
    OutcomeAppend(outcomes, o, o.message.source);
    StampedRecords(s, Ticks(outcomes, o.message.source), o.fate.second);
    hide Records;
  }

  lemma AccountDropped(s: SourceState, arrivals: seq<Arrival>, outcomes: seq<Outcome>, o: Outcome)
    requires Account(s, arrivals, outcomes, o.message.source) && !o.fate.Forwarded?
    ensures Account(s.(dropped := s.dropped + 1), arrivals, outcomes + [o], o.message.source)
  {
    OutcomeAppend(outcomes, o, o.message.source);
    assert Ticks(outcomes, o.message.source) + [] == Ticks(outcomes, o.message.source);
    RecordsFrame(s, s.(dropped := s.dropped + 1), Ticks(outcomes, o.message.source));
    hide Records;
  }

  lemma AccountOther(s: SourceState, arrivals: seq<Arrival>, outcomes: seq<Outcome>, o: Outcome, ip: IpAddr)
    requires Account(s, arrivals, outcomes, ip) && ip != o.message.source
    ensures Account(s, arrivals, outcomes + [o], ip)
  {
    OutcomeAppend(outcomes, o, ip);
    assert Ticks(outcomes, ip) + [] == Ticks(outcomes, ip);
    hide Records;
  }

  /** The table after one message left the queue. */
  function Parted(t: Table, o: Outcome): Table {
    if o.fate.Forwarded? then SourceTable.Forwarded(t, o.message.source, o.fate.second) else Dropped(t, o.message.source)
  }

  lemma AccountsParted(t: Table, arrivals: seq<Arrival>, outcomes: seq<Outcome>, o: Outcome)
    requires Accounts(t, arrivals, outcomes)
    ensures Accounts(Parted(t, o), arrivals, outcomes + [o])
    ensures Parted(t, o).entries.Keys == t.entries.Keys && Parted(t, o).untracked == t.untracked
  {
    var t', ip := Parted(t, o), o.message.source;
    hide Stamped;
    hide Account;
    forall jp | jp in t'.entries ensures Account(t'.entries[jp], arrivals, outcomes + [o], jp) {
      assert Account(t.entries[jp], arrivals, outcomes, jp);
      if jp != ip {
        assert t'.entries[jp] == t.entries[jp];
        AccountOther(t.entries[jp], arrivals, outcomes, o, jp);
      } else if o.fate.Forwarded? {
        AccountForwarded(t.entries[ip], arrivals, outcomes, o);
      } else {
        AccountDropped(t.entries[ip], arrivals, outcomes, o);
      }
    }
  }

  lemma {:induction false} AccountsDrained(t: Table, arrivals: seq<Arrival>, outcomes: seq<Outcome>, queue: seq<Message>, when: Moment)
    requires Accounts(t, arrivals, outcomes)
    ensures var t' := DroppedAll(t, queue);
            && Accounts(t', arrivals, outcomes + ShutdownOutcomes(queue, when))
            && t'.entries.Keys == t.entries.Keys && t'.untracked == t.untracked
    decreases |queue|
  {
    if queue == [] {
      assert outcomes + ShutdownOutcomes(queue, when) == outcomes;
    } else {
      var o := Outcome(queue[0], AtShutdown, when);
      AccountsParted(t, arrivals, outcomes, o);
      AccountsDrained(Parted(t, o), arrivals, outcomes + [o], queue[1..], when);
      assert outcomes + ShutdownOutcomes(queue, when) == (outcomes + [o]) + ShutdownOutcomes(queue[1..], when);
    }
  }

  // ---------- forwarding instants follow the clock ----------

  ghost predicate Clocked(w: World) {
    forall ip :: Nondecreasing(Ticks(w.history.outcomes, ip)) && Until(Ticks(w.history.outcomes, ip), Second(w.shared, w.now))
  }

  lemma ClockedForward(w: World, w': World, o: Outcome)
    requires Clocked(w) && w'.history.outcomes == w.history.outcomes + [o]
    requires Second(w'.shared, w'.now) == Second(w.shared, w.now)
    requires o.fate.Forwarded? ==> o.fate.second == Second(w.shared, w.now)
    ensures Clocked(w')
  {
    hide Second;
    forall ip
      ensures Nondecreasing(Ticks(w'.history.outcomes, ip))
           && Until(Ticks(w'.history.outcomes, ip), Second(w'.shared, w'.now))
    {
      OutcomeAppend(w.history.outcomes, o, ip);
    }
  }

  lemma {:induction false} TicksShutdown(outcomes: seq<Outcome>, queue: seq<Message>, when: Moment, ip: IpAddr)
    ensures Ticks(outcomes + ShutdownOutcomes(queue, when), ip) == Ticks(outcomes, ip)
  {
    if queue == [] {
      assert outcomes + ShutdownOutcomes(queue, when) == outcomes;
    } else {
      var front, last := queue[..|queue| - 1], Outcome(queue[|queue| - 1], AtShutdown, when);
      TicksShutdown(outcomes, front, when, ip);
      assert outcomes + ShutdownOutcomes(queue, when) == (outcomes + ShutdownOutcomes(front, when)) + [last];
      OutcomeAppend(outcomes + ShutdownOutcomes(front, when), last, ip);
    }
  }

  lemma LaterSecond(s: Shared, now: nat, later: nat)
    requires now <= later
    ensures Second(s, now) <= Second(s, later)
  {
    if s.started <= now {
      assert (now - s.started) / NANOS <= (later - s.started) / NANOS;
    }
  }

  // ---------- every step keeps it ----------

  ghost predicate SourcesOk(w: World) {
    && Tracking(w.shared.sources, w.history.arrivals)
    && Accounts(w.shared.sources, w.history.arrivals, w.history.outcomes)
    && Clocked(w)
  }

  lemma SourcesDatagram(u: Setup, w: World, peer: IpAddr, payload: seq<byte>)
    requires Fifo(w) && SourcesOk(w)
    ensures SourcesOk(OnDatagram(u, w, peer, payload))
  {
    hide Fifo;
    hide Tracking;
    hide Accounts;
    hide Booked;
    hide Clocked;
    hide Heard;
    hide OnDatagram;
    DatagramBooks(u, w, peer, payload);
    var a := Heard(u, w, peer, payload);
    BookedKeeps(w, a, Allowed(u.config, a.source));
    ClockedSame(w, OnDatagram(u, w, peer, payload));
  }

  lemma BookedKeeps(w: World, a: Arrival, allowed: bool)
    requires Fifo(w) && Tracking(w.shared.sources, w.history.arrivals)
    requires Accounts(w.shared.sources, w.history.arrivals, w.history.outcomes)
    ensures var t := Booked(w.shared.sources, a.source, allowed, a.verdict.Some?);
            && Tracking(t, w.history.arrivals + [a])
            && Accounts(t, w.history.arrivals + [a], w.history.outcomes)
  {
    AccountsBooked(w, a, allowed);
    TrackingReceived(w.shared.sources, w.history.arrivals, a, allowed);
    hide Fifo;
    hide Accounts;
    hide Received;
    TrackingSameKeys(Received(w.shared.sources, a.source, allowed),
                     Booked(w.shared.sources, a.source, allowed, a.verdict.Some?), w.history.arrivals + [a]);
  }

  lemma ClockedSame(w: World, w': World)
    requires Clocked(w) && w'.history.outcomes == w.history.outcomes
    requires w'.shared.started == w.shared.started && w'.now == w.now
    ensures Clocked(w')
  {
    assert Second(w'.shared, w'.now) == Second(w.shared, w.now);
  }

  lemma SourcesPart(w: World, w': World, o: Outcome)
    requires SourcesOk(w) && w'.shared.sources == Parted(w.shared.sources, o)
    requires w'.history.arrivals == w.history.arrivals && w'.history.outcomes == w.history.outcomes + [o]
    requires w'.now == w.now && w'.shared.started == w.shared.started
    requires o.fate.Forwarded? ==> o.fate.second == Second(w.shared, w.now)
    ensures SourcesOk(w')
  {
    AccountsParted(w.shared.sources, w.history.arrivals, w.history.outcomes, o);
    TrackingSameKeys(w.shared.sources, w'.shared.sources, w.history.arrivals);
    ClockedForward(w, w', o);
  }

  lemma SourcesDrain(w: World)
    requires SourcesOk(w)
    ensures SourcesOk(OnDraining(w))
  {
    var w', q := OnDraining(w), w.shared.queue;
    AccountsDrained(w.shared.sources, w.history.arrivals, w.history.outcomes, q, Now(w));
    TrackingSameKeys(w.shared.sources, w'.shared.sources, w.history.arrivals);
    forall ip
      ensures Nondecreasing(Ticks(w'.history.outcomes, ip))
           && Until(Ticks(w'.history.outcomes, ip), Second(w'.shared, w'.now))
    {
      TicksShutdown(w.history.outcomes, q, Now(w), ip);
    }
  }

  lemma SourcesSame(w: World, w': World)
    requires SourcesOk(w) && w'.shared.sources == w.shared.sources && w'.shared.started == w.shared.started
    requires w'.history.arrivals == w.history.arrivals && w'.history.outcomes == w.history.outcomes
    requires w.now <= w'.now
    ensures SourcesOk(w')
  {
    assert Second(w'.shared, w'.now) == Second(w.shared, w'.now);
    LaterSecond(w.shared, w.now, w'.now);
    hide Second;
    forall ip ensures Until(Ticks(w'.history.outcomes, ip), Second(w'.shared, w'.now)) {
      assert Until(Ticks(w.history.outcomes, ip), Second(w.shared, w.now));
    }
  }

  lemma SourcesSender(u: Setup, w: World, a: Answer)
    requires Shape(w) && FrontOk(w) && SourcesOk(w)
    ensures SourcesOk(OnSender(u, w, a))
  {
    hide OnSender;
    hide SourcesOk;
    SenderMoves(u, w, a);
    match w.sender.pc
    case Polled =>
      var w' := OnPolled(w);
      if w'.history.outcomes != w.history.outcomes {
        SourcesPart(w, w', Outcome(w.shared.queue[0], TooLarge, Now(w)));
      } else {
        SourcesSame(w, w');
      }
    case Wrote => SourcesPart(w, OnWrote(w), Outcome(w.shared.queue[0], Fate.Forwarded(Second(w.shared, w.now)), Now(w)));
    case Draining => SourcesDrain(w);
    case _ =>
      SenderQuiet(u, w, a);
      SourcesSame(w, OnSender(u, w, a));
  }

  lemma SourcesStep(u: Setup, w: World, step: Step)
    requires Shape(w) && FrontOk(w) && Fifo(w) && SourcesOk(w) && Enabled(w, step)
    ensures SourcesOk(Apply(u, w, step))
  {
    hide OnSender;
    hide OnDatagram;
    hide SourcesOk;
    match step
    case Datagram(peer, payload) => SourcesDatagram(u, w, peer, payload);
    case SenderStep(a) => SourcesSender(u, w, a);
    case _ => SourcesSame(w, Apply(u, w, step));
  }

  // ---------- what follows for every source ----------

  /** A tracked source received what it forwarded, dropped and still has queued. */
  lemma SourceConservation(w: World, ip: IpAddr)
    requires Fifo(w) && SourcesOk(w) && ip in w.shared.sources.entries
    ensures var s := w.shared.sources.entries[ip];
            s.received == s.forwarded + s.dropped + MessagesFrom(w.shared.queue, ip)
  {
    AdmittedFrom(w.history.arrivals, ip);
    DepartedFrom(w.history.outcomes, ip);
    MessagesConcat(Departed(w.history.outcomes), w.shared.queue, ip);
    assert Account(w.shared.sources.entries[ip], w.history.arrivals, w.history.outcomes, ip);
  }

  ghost function Pick(keys: set<IpAddr>): (ip: IpAddr)
    requires keys != {}
    ensures ip in keys
  {
    var ip :| ip in keys;
    ip
  }

  ghost function TotalReceived(t: Table, keys: set<IpAddr>): nat
    requires keys <= t.entries.Keys
  {
    if keys == {} then 0
    else t.entries[Pick(keys)].received + TotalReceived(t, keys - {Pick(keys)})
  }

  ghost function TotalFrom(arrivals: seq<Arrival>, keys: set<IpAddr>): nat {
    if keys == {} then 0 else From(arrivals, Pick(keys)) + TotalFrom(arrivals, keys - {Pick(keys)})
  }

  lemma {:induction false} TotalFromAppend(arrivals: seq<Arrival>, a: Arrival, keys: set<IpAddr>)
    ensures TotalFrom(arrivals + [a], keys) == TotalFrom(arrivals, keys) + if a.source in keys then 1 else 0
  {
    if keys != {} {
      ArrivalAppend(arrivals, a, Pick(keys));
      TotalFromAppend(arrivals, a, keys - {Pick(keys)});
    }
  }

  lemma {:induction false} TotalFromNone(keys: set<IpAddr>)
    ensures TotalFrom([], keys) == 0
  {
    if keys != {} { TotalFromNone(keys - {Pick(keys)}); }
  }

  lemma {:induction false} TotalSplits(arrivals: seq<Arrival>, keys: set<IpAddr>)
    ensures TotalFrom(arrivals, keys) + Untracked(arrivals, keys) == |arrivals|
  {
    if arrivals == [] {
      TotalFromNone(keys);
    } else {
      var front, a := arrivals[..|arrivals| - 1], arrivals[|arrivals| - 1];
      TotalSplits(front, keys);
      TotalFromAppend(front, a, keys);
      assert arrivals == front + [a];
    }
  }

  lemma {:induction false} TotalsAgree(t: Table, arrivals: seq<Arrival>, outcomes: seq<Outcome>, keys: set<IpAddr>)
    requires Accounts(t, arrivals, outcomes) && keys <= t.entries.Keys
    ensures TotalReceived(t, keys) == TotalFrom(arrivals, keys)
  {
    if keys != {} {
      TotalsAgree(t, arrivals, outcomes, keys - {Pick(keys)});
    }
  }

  /** The datagrams of the tracked sources and the untracked ones are all there were. */
  lemma AllSourcesConservation(w: World)
    requires Tallies(w) && SourcesOk(w)
    ensures var t := w.shared.sources;
            TotalReceived(t, t.entries.Keys) + t.untracked == w.shared.received
  {
    var t := w.shared.sources;
    TotalSplits(w.history.arrivals, t.entries.Keys);
    TotalsAgree(t, w.history.arrivals, w.history.outcomes, t.entries.Keys);
  }

  /** A snapshot row shows the exact windows of the source's forwarding history. */
  lemma SnapshotIsExact(w: World, ip: IpAddr)
    requires SourcesOk(w) && ip in w.shared.sources.entries
    ensures var second, log := Second(w.shared, w.now), Ticks(w.history.outcomes, ip);
            var row := Snapshot(w.shared.sources, second)[ip];
            && row.received == From(w.history.arrivals, ip)
            && row.forwarded == |log|
            && row.perSecond == Count(log, second, 1, 1)
            && row.perMinute == Count(log, second, 1, 60)
            && row.last24h == Count(Minutes(log), second / 60, 0, 1439)
            && Count(log, second, 0, 86340) <= row.last24h <= Count(log, second, 0, 86399)
            && row.perSecond <= row.perMinute <= row.last24h <= row.forwarded
  {
    assert Account(w.shared.sources.entries[ip], w.history.arrivals, w.history.outcomes, ip);
    RowIsExact(w.shared.sources.entries[ip], Ticks(w.history.outcomes, ip), Second(w.shared, w.now));
  }
}
