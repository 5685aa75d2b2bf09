/** What the published status and the sender's pauses mean (crates/core/src/relay.rs): the
    retry count, the in-flight mark, the mark of permitted sources, how long the sender
    sleeps, and why it gives a session up. */
module RelayStatus {
  import opened Octets
  import opened Config
  import opened RelayModel
  import opened RelayMachine
  import opened RelayLedger
  import opened RelayProtocol
  import SourceTable

  /** Failure pauses so far. */
  function Rests(calls: seq<Call>): nat {
    if calls == [] then 0 else Rests(Front(calls)) + if Last(calls).Resting? then 1 else 0
  }

  lemma RestsAppend(calls: seq<Call>, c: Call)
    ensures Rests(calls + [c]) == Rests(calls) + if c.Resting? then 1 else 0
  {
    assert Front(calls + [c]) == calls;
  }

  /** A frame has been taken, and neither its success is accounted nor its loss counted. */
  predicate Writes(s: Sender) {
    s.pending.Some? && !s.pc.Finished? && !s.pc.Done?
  }

  predicate Marks(w: World) {
    && (Writes(w.sender) ==> w.shared.inFlight)
    && (w.shared.inFlight ==> Writes(w.sender) || w.sender.pc.Lost?)
  }

  /** The frame being written is the one taken last, and `writeStarted` is when that was. */
  predicate TakenLast(w: World) {
    w.sender.pending.Some? ==>
      && w.history.taken != []
      && Last(w.history.taken).frame == w.sender.pending.value
      && Last(w.history.taken).when.at == w.sender.writeStarted
  }

  /** A session is given up after a failed call, or when a write of the frame taken last
      still blocks later than the timeout allows. */
  predicate GivesUp(u: Setup, w: World) {
    && (w.sender.pc.Blocked? ==> Outstanding(w.history.calls).Some?)
    && (w.sender.pc.Failed? ==>
          || Broken(w.history.calls)
          || (Outstanding(w.history.calls).Some? && w.history.taken != []
              && w.now > Last(w.history.taken).when.at + u.config.handshakeTimeoutMs * 1_000_000))
  }

  /** No short pause exceeds ten milliseconds, no lookup is waited for beyond the timeout. */
  predicate Brief(u: Setup, w: World) {
    && (w.sender.pc.Pause? ==> w.sender.pc.wake <= w.now + 10_000_000)
    && (w.sender.pc.Resolving? ==> w.sender.pc.until <= w.now + u.config.handshakeTimeoutMs * 1_000_000)
  }

  predicate MarksAllowed(c: Config, t: SourceTable.Table) {
    forall ip | ip in t.entries :: t.entries[ip].allowed <==> Allowed(c, ip)
  }

  predicate StatusOk(u: Setup, w: World) {
    && w.shared.retries == Rests(w.history.calls)
    && Marks(w) && TakenLast(w) && GivesUp(u, w) && Brief(u, w)
    && MarksAllowed(u.config, w.shared.sources)
  }

  // ---------- the sender ----------

  lemma StatusConnecting(u: Setup, w: World, a: Answer)
    requires Shape(w) && StatusOk(u, w) && Connecting(w.sender.pc)
    ensures StatusOk(u, OnConnecting(u, w, a))
  {
    hide Rests;
    hide MarksAllowed;
    hide NextJitter;
    hide JitteredMs;
    var calls, s := w.history.calls, w.sender;
    match s.pc
    case Dial(addresses) =>
      var dialled := Dialled(s.attempts % addresses, addresses, w.now);
      RestsAppend(calls, dialled);
      if a.ok { RestsAppend(calls + [dialled], Connected(Session(s.attempts, a.amount))); }
    case Retry => RestsAppend(calls, Resting(true, JitteredMs(s.delay, NextJitter(s.jitter), u.config.retryMaxMs), w.now));
    case _ =>
  }

  lemma StatusTransport(u: Setup, w: World, a: Answer)
    requires Shape(w) && StatusOk(u, w) && Transporting(w.sender.pc) && !Moving(w.sender.pc)
    ensures StatusOk(u, OnTransport(u, w, a))
  {
    hide Rests;
    hide MarksAllowed;
    var calls, s := w.history.calls, w.sender;
    match s.pc
    case Poll => RestsAppend(calls, Polling(s.session.value.id, a.ok));
    case Write => RestsAppend(calls, Writing(s.session.value.id, s.pending.value, a.write, w.now));
    case Failed => RestsAppend(calls, Closing(s.session.value.id));
    case Lost => RestsAppend(calls, Resting(false, s.delay, w.now));
    case _ =>
  }

  lemma StatusLoop(u: Setup, w: World)
    requires Shape(w) && StatusOk(u, w) && !Connecting(w.sender.pc) && !Transporting(w.sender.pc) && !Moving(w.sender.pc)
    ensures StatusOk(u, OnLoop(u, w))
  {
    hide Rests;
    hide MarksAllowed;
    if w.sender.pc.Leaving? && w.sender.session.Some? {
      RestsAppend(w.history.calls, Closing(w.sender.session.value.id));
    }
  }

  lemma DroppedMarks(c: Config, t: SourceTable.Table, ip: IpAddr)
    requires MarksAllowed(c, t)
    ensures MarksAllowed(c, SourceTable.Dropped(t, ip))
  {
    hide Allowed;
  }

  lemma {:induction false} DroppedAllMarks(c: Config, t: SourceTable.Table, queue: seq<Message>)
    requires MarksAllowed(c, t)
    ensures MarksAllowed(c, DroppedAll(t, queue))
    decreases |queue|
  {
    hide MarksAllowed;
    if queue != [] {
      DroppedMarks(c, t, queue[0].source);
      DroppedAllMarks(c, SourceTable.Dropped(t, queue[0].source), queue[1..]);
    }
  }

  lemma FinishMarks(c: Config, s: Shared, forwarded: bool, now: nat)
    requires MarksAllowed(c, s.sources)
    ensures var s' := FinishFront(s, forwarded, now);
            MarksAllowed(c, s'.sources) && !s'.inFlight && s'.retries == s.retries
  {
    hide Allowed;
    hide Second;
  }

  lemma StatusSender(u: Setup, w: World, a: Answer)
    requires Shape(w) && StatusOk(u, w)
    ensures StatusOk(u, OnSender(u, w, a))
  {
    SenderMoves(u, w, a);
    match w.sender.pc
    case Polled =>
      hide OnSender;
      FinishMarks(u.config, w.shared, false, w.now);
      hide FinishFront;
      hide MarksAllowed;
      hide Rests;
    case Wrote =>
      hide OnSender;
      FinishMarks(u.config, w.shared, true, w.now);
      hide FinishFront;
      hide MarksAllowed;
      hide Rests;
    case Draining =>
      hide OnSender;
      DroppedAllMarks(u.config, w.shared.sources, w.shared.queue);
      hide DroppedAll;
      hide MarksAllowed;
      hide Rests;
    case _ =>
      hide StatusOk;
      if Connecting(w.sender.pc) { StatusConnecting(u, w, a); }
      else if Transporting(w.sender.pc) { StatusTransport(u, w, a); }
      else { StatusLoop(u, w); }
  }

  // ---------- every step ----------

  lemma ReceiveMarks(u: Setup, s: Shared, ip: IpAddr, payload: seq<byte>)
    requires MarksAllowed(u.config, s.sources)
    ensures var s' := Receive(u, s, ip, payload);
            MarksAllowed(u.config, s'.sources) && s'.inFlight == s.inFlight && s'.retries == s.retries
  {
    hide Verdict;
    hide Allowed;
    DroppedMarks(u.config, SourceTable.Received(s.sources, ip, Allowed(u.config, ip)), ip);
    hide SourceTable.Dropped;
  }

  lemma StatusStep(u: Setup, w: World, step: Step)
    requires Shape(w) && StatusOk(u, w) && Enabled(w, step)
    ensures StatusOk(u, Apply(u, w, step))
  {
    hide OnSender;
    hide Rests;
    match step
    case Datagram(peer, payload) =>
      ReceiveMarks(u, w.shared, CanonicalIp(peer), payload);
      hide Receive;
      hide Heard;
      hide MarksAllowed;
    case SenderStep(a) => StatusSender(u, w, a); hide StatusOk;
    case _ => hide MarksAllowed;
  }
}
