/** What the history says about every decision the relay took: why a datagram was admitted
    or refused, why a message left the queue, and when the sender could leave its loop
    (crates/core/src/relay.rs). Conditions are read off the history alone. */
module RelayRecord {
  import opened Octets
  import opened Config
  import opened Framing
  import opened RelayModel
  import opened RelayMachine
  import opened RelayLedger
  import opened RelayProtocol
  import Grammar

  // ---------- stop requests ----------

  predicate NoFailure(stops: seq<StopRequest>) {
    forall k | 0 <= k < |stops| :: !stops[k].failed
  }

  /** When a stopping relay gives up: at the listener's last failure, and without one the
      drain time after the first call of `stop`. */
  function Deadline(c: Config, stops: seq<StopRequest>): Option<nat> {
    if stops == [] then None
    else if Last(stops).failed then Some(Last(stops).at)
    else if |stops| == 1 then Some(stops[0].at + c.shutdownDrainMs * 1_000_000)
    else Deadline(c, Front(stops))
  }

  lemma {:induction false} DeadlineMeans(c: Config, stops: seq<StopRequest>)
    ensures Deadline(c, stops).None? <==> stops == []
    ensures stops != [] && NoFailure(stops) ==>
              Deadline(c, stops) == Some(stops[0].at + c.shutdownDrainMs * 1_000_000)
    ensures forall k | 0 <= k < |stops| && LastFailure(stops, k) :: Deadline(c, stops) == Some(stops[k].at)
  {
    if |stops| > 1 && !Last(stops).failed {
      DeadlineMeans(c, Front(stops));
      forall k | 0 <= k < |stops| && LastFailure(stops, k) ensures Deadline(c, stops) == Some(stops[k].at) {
        assert LastFailure(Front(stops), k);
      }
    }
  }

  predicate LastFailure(stops: seq<StopRequest>, k: nat)
    requires k < |stops|
  {
    stops[k].failed && forall j | k < j < |stops| :: !stops[j].failed
  }

  lemma DeadlineAppend(c: Config, stops: seq<StopRequest>, r: StopRequest)
    ensures Deadline(c, stops + [r])
         == if r.failed then Some(r.at)
            else if stops == [] then Some(r.at + c.shutdownDrainMs * 1_000_000)
            else Deadline(c, stops)
  {
    assert Front(stops + [r]) == stops;
  }

  predicate StopsOk(u: Setup, w: World) {
    && w.shared.stopAt == Deadline(u.config, w.history.stops)
    && w.shared.started == w.history.start <= w.now
    && (w.sender.pc.Leaving? || w.sender.pc.Draining? ==> w.shared.queue == [] || Expired(w.shared, w.now))
  }

  lemma StopsStep(u: Setup, w: World, step: Step)
    requires Shape(w) && FrontOk(w) && StopsOk(u, w) && Enabled(w, step)
    ensures StopsOk(u, Apply(u, w, step))
  {
    hide Deadline;
    match step
    case StopCalled => StopsAdded(u, w, false);
    case ListenerError => StopsAdded(u, w, true);
    case Datagram(peer, payload) =>
      ReceiveStops(u, w.shared, CanonicalIp(peer), payload);
      hide Receive;
    case SenderStep(a) =>
      hide OnSender;
      StopsSender(u, w, a);
    case _ =>
  }

  lemma StopsAdded(u: Setup, w: World, failed: bool)
    requires StopsOk(u, w)
    ensures var stops := w.history.stops + [StopRequest(failed, w.now)];
            Deadline(u.config, stops) == if failed then Some(w.now) else Stop(u, w.shared, w.now).stopAt
  {
    DeadlineAppend(u.config, w.history.stops, StopRequest(failed, w.now));
    DeadlineMeans(u.config, w.history.stops);
    hide Deadline;
  }

  lemma ReceiveStops(u: Setup, s: Shared, ip: IpAddr, payload: seq<byte>)
    ensures var s' := Receive(u, s, ip, payload);
            && s'.stopAt == s.stopAt && s'.started == s.started
            && (s.stopAt.Some? ==> s'.queue == s.queue)
  {
    hide Grammar.Accepts;
    hide SourceTable.Received;
    hide SourceTable.Dropped;
  }

  lemma StopsSender(u: Setup, w: World, a: Answer)
    requires Shape(w) && StopsOk(u, w)
    ensures StopsOk(u, OnSender(u, w, a))
  {
    LeavesOnly(u, w, a);
    SenderMoves(u, w, a);
    hide OnSender;
    hide Deadline;
    match w.sender.pc
    case Polled => hide SourceTable.Dropped;
    case Wrote => hide SourceTable.Forwarded;
    case Draining => hide DroppedAll;
    case _ => SenderQuiet(u, w, a);
  }

  /** The sender leaves its loop only at the loop head or after a failed connection. */
  lemma LeavesOnly(u: Setup, w: World, a: Answer)
    ensures OnSender(u, w, a).sender.pc.Leaving? ==>
              && (w.sender.pc.Check? || w.sender.pc.ConnectFailed?)
              && w.shared.stopAt.Some? && (w.shared.queue == [] || Expired(w.shared, w.now))
    ensures OnSender(u, w, a).sender.pc.Draining? ==> w.sender.pc.Leaving?
  {
    hide NextJitter;
    hide JitteredMs;
    hide FinishFront;
    hide Drain;
  }

  // ---------- datagrams ----------

  /** Any source, or a listed address of the same host. */
  predicate Permitted(c: Config, peer: IpAddr) {
    c.mode.Any? || exists k | 0 <= k < |c.allowedIps| :: SameHost(c.allowedIps[k], peer)
  }

  lemma PermittedIsAllowed(c: Config, peer: IpAddr)
    ensures Allowed(c, CanonicalIp(peer)) <==> Permitted(c, peer)
  {
    forall k | 0 <= k < |c.allowedIps|
      ensures CanonicalIp(c.allowedIps[k]) == CanonicalIp(peer) <==> SameHost(c.allowedIps[k], peer)
    {
      CanonicalIpIsSameHost(c.allowedIps[k], peer);
    }
  }

  /** The messages admitted but not departed when `a` arrived. */
  function Waiting(arrivals: seq<Arrival>, a: Arrival): seq<Message>
    requires a.when.arrivals <= |arrivals| && a.when.outcomes <= |Admitted(arrivals[..a.when.arrivals])|
  {
    Admitted(arrivals[..a.when.arrivals])[a.when.outcomes..]
  }

  /** What is wrong with a datagram, were this reason the only one. */
  ghost predicate Faulty(u: Setup, a: Arrival, waiting: seq<Message>, why: Reason) {
    match why
    case SourceDenied => !Permitted(u.config, a.peer)
    case ShutDown => a.when.stops > 0
    case Oversized => |a.payload| > u.config.maxMessageBytes
    case Invalid => !Grammar.Accepts(u.texts, a.payload)
    case QueueFull => |waiting| >= u.config.maxMessages || Bytes(waiting) + |a.payload| > u.config.maxBytes
  }

  /** The order in which reasons take precedence. */
  const Precedence: seq<Reason> := [SourceDenied, ShutDown, Oversized, Invalid, QueueFull]

  /** Admitted exactly when nothing is wrong, and refused exactly for the first reason. */
  ghost predicate Judged(u: Setup, a: Arrival, waiting: seq<Message>) {
    && (a.verdict.None? <==> forall why :: !Faulty(u, a, waiting, why))
    && forall n | 0 <= n < 5 ::
         a.verdict == Some(Precedence[n])
         <==> Faulty(u, a, waiting, Precedence[n]) && forall m | 0 <= m < n :: !Faulty(u, a, waiting, Precedence[m])
  }

  ghost predicate ArrivalOk(u: Setup, arrivals: seq<Arrival>, i: nat)
    requires i < |arrivals|
  {
    var a := arrivals[i];
    && a.when.arrivals == i && a.source == CanonicalIp(a.peer)
    && a.when.outcomes <= |Admitted(arrivals[..i])|
    && Judged(u, a, Waiting(arrivals, a))
  }

  ghost predicate ArrivalsOk(u: Setup, arrivals: seq<Arrival>) {
    forall i | 0 <= i < |arrivals| :: ArrivalOk(u, arrivals, i)
  }

  lemma ArrivalsAppend(u: Setup, arrivals: seq<Arrival>, a: Arrival)
    requires ArrivalsOk(u, arrivals)
    requires a.when.arrivals == |arrivals| && a.source == CanonicalIp(a.peer)
    requires a.when.outcomes <= |Admitted(arrivals)| && Judged(u, a, Admitted(arrivals)[a.when.outcomes..])
    ensures ArrivalsOk(u, arrivals + [a])
  {
    hide Judged;
    hide Admitted;
    var all := arrivals + [a];
    assert all[..|arrivals|] == arrivals;
    forall i | 0 <= i < |all| ensures ArrivalOk(u, all, i) {
      if i < |arrivals| {
        assert ArrivalOk(u, arrivals, i);
        assert all[..i] == arrivals[..i];
      }
    }
  }

  lemma FirstFault(u: Setup, a: Arrival, waiting: seq<Message>, n: nat)
    requires n < 5
    ensures (forall m | 0 <= m < n :: !Faulty(u, a, waiting, Precedence[m]))
       <==> && (n > 0 ==> !Faulty(u, a, waiting, SourceDenied))
            && (n > 1 ==> !Faulty(u, a, waiting, ShutDown))
            && (n > 2 ==> !Faulty(u, a, waiting, Oversized))
            && (n > 3 ==> !Faulty(u, a, waiting, Invalid))
  {
    hide Faulty;
    assert Precedence[0] == SourceDenied && Precedence[1] == ShutDown && Precedence[2] == Oversized && Precedence[3] == Invalid;
  }

  lemma VerdictJudges(u: Setup, w: World, peer: IpAddr, payload: seq<byte>)
    requires QueueOk(u, w.shared) && StopsOk(u, w)
    ensures Judged(u, Heard(u, w, peer, payload), w.shared.queue)
  {
    hide Grammar.Accepts;
    hide Permitted;
    hide Bytes;
    PermittedIsAllowed(u.config, peer);
    hide Allowed;
    DeadlineMeans(u.config, w.history.stops);
    hide Deadline;
    var a := Heard(u, w, peer, payload);
    if a.verdict.None? {
      forall why ensures !Faulty(u, a, w.shared.queue, why) {
        match why case SourceDenied => case ShutDown => case Oversized => case Invalid => case QueueFull =>
      }
    } else {
      assert Faulty(u, a, w.shared.queue, a.verdict.value);
    }
    forall n | 0 <= n < 5
      ensures a.verdict == Some(Precedence[n])
         <==> Faulty(u, a, w.shared.queue, Precedence[n])
              && forall m | 0 <= m < n :: !Faulty(u, a, w.shared.queue, Precedence[m])
    {
      FirstFault(u, a, w.shared.queue, n);
    }
  }

  // ---------- departures ----------

  predicate OutcomeOk(c: Config, h: History, o: Outcome) {
    && h.start <= o.when.at && o.when.calls <= |h.calls| && o.when.stops <= |h.stops|
    && var calls, stops := h.calls[..o.when.calls], h.stops[..o.when.stops];
       match o.fate
       case Forwarded(second) =>
         && calls != [] && Last(calls).Writing? && Last(calls).outcome.Sent?
         && Last(calls).frame == FrameOf(o.message.payload)
         && second == (o.when.at - h.start) / 1_000_000_000
       case TooLarge =>
         && OpenSession(calls).Some? && Last(calls) == Polling(OpenSession(calls).value.id, true)
         && |FrameOf(o.message.payload)| > OpenSession(calls).value.maxPlaintext
       case AtShutdown =>
         && OpenSession(calls).None? && stops != []
         && (NoFailure(stops) ==> o.when.at >= stops[0].at + c.shutdownDrainMs * 1_000_000)
  }

  predicate OutcomesOk(c: Config, h: History) {
    forall j | 0 <= j < |h.outcomes| :: OutcomeOk(c, h, h.outcomes[j])
  }

  /** The last call on the transport where the sender acts on its result. */
  predicate LastCall(w: World) {
    var calls, s := w.history.calls, w.sender;
    && (s.pc.Polled? && s.session.Some? ==> calls != [] && Last(calls) == Polling(s.session.value.id, true))
    && (s.pc.Wrote? && s.pending.Some? ==>
          calls != [] && Last(calls).Writing? && Last(calls).outcome.Sent? && Last(calls).frame == s.pending.value)
  }

  lemma LastCallSender(u: Setup, w: World, a: Answer)
    requires Shape(w) && LastCall(w)
    ensures LastCall(OnSender(u, w, a))
  {
    if Connecting(w.sender.pc) {
      hide NextJitter;
      hide JitteredMs;
    } else if Transporting(w.sender.pc) {
      hide FinishFront;
    } else {
      hide Drain;
    }
  }

  predicate Extends(h: History, h': History) {
    h.start == h'.start && h.calls <= h'.calls && h.stops <= h'.stops
  }

  lemma OutcomeStands(c: Config, h: History, h': History, o: Outcome)
    requires OutcomeOk(c, h, o) && Extends(h, h')
    ensures OutcomeOk(c, h', o)
  {
    hide FrameOf;
    assert h'.calls[..o.when.calls] == h.calls[..o.when.calls];
    assert h'.stops[..o.when.stops] == h.stops[..o.when.stops];
  }

  lemma OutcomesStand(c: Config, h: History, h': History)
    requires OutcomesOk(c, h) && Extends(h, h') && h'.outcomes == h.outcomes
    ensures OutcomesOk(c, h')
  {
    forall j | 0 <= j < |h'.outcomes| ensures OutcomeOk(c, h', h'.outcomes[j]) {
      OutcomeStands(c, h, h', h.outcomes[j]);
    }
  }

  lemma OutcomesAdded(c: Config, h: History, h': History, more: seq<Outcome>)
    requires OutcomesOk(c, h) && Extends(h, h') && h'.outcomes == h.outcomes + more
    requires forall k | 0 <= k < |more| :: OutcomeOk(c, h', more[k])
    ensures OutcomesOk(c, h')
  {
    forall j | 0 <= j < |h'.outcomes| ensures OutcomeOk(c, h', h'.outcomes[j]) {
      if j < |h.outcomes| {
        OutcomeStands(c, h, h', h.outcomes[j]);
      } else {
        assert h'.outcomes[j] == more[j - |h.outcomes|];
      }
    }
  }

  // ---------- every step keeps it ----------

  ghost predicate RecordOk(u: Setup, w: World) {
    && StopsOk(u, w) && LastCall(w)
    && ArrivalsOk(u, w.history.arrivals) && OutcomesOk(u.config, w.history)
  }

  lemma RecordDatagram(u: Setup, w: World, peer: IpAddr, payload: seq<byte>)
    requires QueueOk(u, w.shared) && Fifo(w) && StopsOk(u, w) && ArrivalsOk(u, w.history.arrivals)
    ensures ArrivalsOk(u, OnDatagram(u, w, peer, payload).history.arrivals)
  {
    VerdictJudges(u, w, peer, payload);
    hide Judged;
    hide ArrivalsOk;
    hide Verdict;
    hide Receive;
    hide QueueOk;
    assert Admitted(w.history.arrivals)[|w.history.outcomes|..] == w.shared.queue;
    ArrivalsAppend(u, w.history.arrivals, Heard(u, w, peer, payload));
  }

  lemma DroppedTooLarge(u: Setup, w: World)
    requires Shape(w) && Linked(w) && StopsOk(u, w) && LastCall(w) && w.sender.pc.Polled?
    requires OutcomesOk(u.config, w.history)
    ensures OutcomesOk(u.config, OnPolled(w).history)
  {
    assert OpenSession(w.history.calls) == w.sender.session;
    hide Linked;
    hide FrameOf;
    hide FinishFront;
    hide OutcomesOk;
    var h, h' := w.history, OnPolled(w).history;
    assert h.calls[..|h.calls|] == h.calls && h.stops[..|h.stops|] == h.stops;
    if h'.outcomes != h.outcomes {
      OutcomesAdded(u.config, h, h', [Outcome(w.shared.queue[0], TooLarge, Now(w))]);
    } else {
      OutcomesStand(u.config, h, h');
    }
  }

  lemma SentIsForwarded(u: Setup, w: World)
    requires Shape(w) && FrontOk(w) && StopsOk(u, w) && LastCall(w) && w.sender.pc.Wrote?
    requires OutcomesOk(u.config, w.history)
    ensures OutcomesOk(u.config, OnWrote(w).history)
  {
    hide FrameOf;
    hide FinishFront;
    hide OutcomesOk;
    var h, h' := w.history, OnWrote(w).history;
    assert h.calls[..|h.calls|] == h.calls && h.stops[..|h.stops|] == h.stops;
    OutcomesAdded(u.config, h, h', [Outcome(w.shared.queue[0], Fate.Forwarded(Second(w.shared, w.now)), Now(w))]);
  }

  lemma RestAtShutdown(u: Setup, w: World)
    requires Shape(w) && FrontOk(w) && Linked(w) && StopsOk(u, w) && w.sender.pc.Draining?
    requires OutcomesOk(u.config, w.history)
    ensures OutcomesOk(u.config, OnDraining(w).history)
  {
    DeadlineMeans(u.config, w.history.stops);
    hide Deadline;
    hide FrameOf;
    hide Drain;
    hide OutcomesOk;
    var h, h', more := w.history, OnDraining(w).history, ShutdownOutcomes(w.shared.queue, Now(w));
    assert h.calls[..|h.calls|] == h.calls && h.stops[..|h.stops|] == h.stops;
    forall k | 0 <= k < |more| ensures OutcomeOk(u.config, h', more[k]) {
      assert w.shared.queue != [];
    }
    OutcomesAdded(u.config, h, h', more);
  }

  lemma RecordSender(u: Setup, w: World, a: Answer)
    requires Shape(w) && FrontOk(w) && Linked(w) && RecordOk(u, w)
    ensures OutcomesOk(u.config, OnSender(u, w, a).history)
    ensures OnSender(u, w, a).history.arrivals == w.history.arrivals
  {
    SenderMoves(u, w, a);
    CallsAdded(u, w, a);
    hide OnSender;
    hide CallsOf;
    hide OutcomesOk;
    hide ArrivalsOk;
    hide StopsOk;
    hide LastCall;
    hide Linked;
    hide FinishFront;
    hide Drain;
    match w.sender.pc
    case Polled => DroppedTooLarge(u, w);
    case Wrote => SentIsForwarded(u, w);
    case Draining => RestAtShutdown(u, w);
    case _ =>
      SenderQuiet(u, w, a);
      OutcomesStand(u.config, w.history, OnSender(u, w, a).history);
  }

  lemma RecordStep(u: Setup, w: World, step: Step)
    requires Shape(w) && FrontOk(w) && QueueOk(u, w.shared) && Fifo(w) && Linked(w)
    requires RecordOk(u, w) && Enabled(w, step)
    ensures RecordOk(u, Apply(u, w, step))
  {
    StopsStep(u, w, step);
    hide StopsOk;
    hide FrontOk;
    hide Shape;
    hide QueueOk;
    hide Fifo;
    hide Linked;
    hide ArrivalsOk;
    hide OutcomesOk;
    hide OnSender;
    hide Heard;
    hide Receive;
    match step
    case Datagram(peer, payload) =>
      RecordDatagram(u, w, peer, payload);
      OutcomesStand(u.config, w.history, OnDatagram(u, w, peer, payload).history);
    case SenderStep(a) =>
      RecordSender(u, w, a);
      LastCallSender(u, w, a);
    case _ =>
      OutcomesStand(u.config, w.history, Apply(u, w, step).history);
  }
}
