/** How long the sender really waits (crates/core/src/relay.rs, `pause` and the write
    timeout): no connection attempt before the last failure pause is over, and no write
    repeated once the timeout has passed. */
module RelayWaiting {
  import opened Octets
  import opened Config
  import opened RelayModel
  import opened RelayMachine
  import opened RelayLedger
  import opened RelayProtocol

  /** When the last failure pause ends. */
  function Due(calls: seq<Call>): nat {
    if calls == [] then 0
    else if Last(calls).Resting? then Last(calls).at + Last(calls).ms * MILLI
    else Due(Front(calls))
  }

  /** First attempt of the write at the end of the calls, if there is one. */
  function FirstAttempt(calls: seq<Call>): nat
    requires calls != [] && Last(calls).Writing?
  {
    if Outstanding(Front(calls)).Some? then FirstAttempt(Front(calls)) else Last(calls).at
  }

  /** A dial waits for the last pause; a write is repeated only while the timeout since
      its first attempt had not passed when it last blocked. */
  predicate Patient(u: Setup, calls: seq<Call>, c: Call) {
    && (c.Dialled? ==> c.at >= Due(calls))
    && (c.Writing? && Outstanding(calls).Some? ==>
          Last(calls).at <= FirstAttempt(calls) + u.config.handshakeTimeoutMs * MILLI)
  }

  predicate AllPatient(u: Setup, calls: seq<Call>) {
    calls == [] || (AllPatient(u, Front(calls)) && Patient(u, Front(calls), Last(calls)))
  }

  predicate Waited(u: Setup, w: World) {
    var calls, s := w.history.calls, w.sender;
    && AllPatient(u, calls)
    && (match s.pc
        case Backoff(wake) => wake == Due(calls)
        case Check => w.now >= Due(calls) || Expired(w.shared, w.now)
        case Leaving => true
        case Draining => true
        case Done => true
        case _ => w.now >= Due(calls))
    && (s.pending.Some? ==> s.writeStarted <= w.now)
    && (Outstanding(calls).Some? ==>
          && FirstAttempt(calls) >= s.writeStarted
          && (!s.pc.Blocked? && !s.pc.Failed? ==> Last(calls).at <= s.writeStarted + u.config.handshakeTimeoutMs * MILLI)
          && Last(calls).at <= w.now)
  }

  lemma PatientAppend(u: Setup, calls: seq<Call>, c: Call)
    requires AllPatient(u, calls) && Patient(u, calls, c)
    ensures AllPatient(u, calls + [c])
    ensures Due(calls + [c]) == if c.Resting? then c.at + c.ms * MILLI else Due(calls)
    ensures Last(calls + [c]) == c
    ensures c.Writing? ==> FirstAttempt(calls + [c]) == if Outstanding(calls).Some? then FirstAttempt(calls) else c.at
  {
    assert Front(calls + [c]) == calls;
  }

  lemma WaitedConnecting(u: Setup, w: World, a: Answer)
    requires Shape(w) && Linked(w) && Waited(u, w) && Connecting(w.sender.pc)
    ensures Waited(u, OnConnecting(u, w, a))
  {
    hide Due;
    hide FirstAttempt;
    hide AllPatient;
    assert Outstanding(w.history.calls).None?;
    hide Linked;
    hide NextJitter;
    hide JitteredMs;
    hide Disciplined;
    hide Dials;
    hide IdsBelow;
    var calls := w.history.calls;
    match w.sender.pc
    case Dial(addresses) =>
      var dialled := Dialled(w.sender.attempts % addresses, addresses, w.now);
      PatientAppend(u, calls, dialled);
      if a.ok {
        PatientAppend(u, calls + [dialled], Connected(Session(w.sender.attempts, a.amount)));
      }
    case Retry =>
      PatientAppend(u, calls,
        Resting(true, JitteredMs(w.sender.delay, NextJitter(w.sender.jitter), u.config.retryMaxMs), w.now));
    case _ =>
  }

  lemma WaitedTransport(u: Setup, w: World, a: Answer)
    requires Shape(w) && Linked(w) && Waited(u, w) && Transporting(w.sender.pc)
    ensures Waited(u, OnTransport(u, w, a))
  {
    hide Due;
    hide FirstAttempt;
    hide AllPatient;
    hide FinishFront;
    hide Disciplined;
    hide Dials;
    hide IdsBelow;
    hide OpenSession;
    var calls, s := w.history.calls, w.sender;
    match s.pc
    case Poll => PatientAppend(u, calls, Polling(s.session.value.id, a.ok));
    case Write => PatientAppend(u, calls, Writing(s.session.value.id, s.pending.value, a.write, w.now));
    case Failed => PatientAppend(u, calls, Closing(s.session.value.id));
    case Lost => PatientAppend(u, calls, Resting(false, s.delay, w.now));
    case _ =>
  }

  lemma WaitedLoop(u: Setup, w: World)
    requires Shape(w) && Linked(w) && Waited(u, w) && Enabled(w, SenderStep(Answer(true, 0, Sent)))
    requires !Connecting(w.sender.pc) && !Transporting(w.sender.pc)
    ensures Waited(u, OnLoop(u, w))
  {
    hide Due;
    hide FirstAttempt;
    hide AllPatient;
    hide Drain;
    hide Disciplined;
    hide Dials;
    hide IdsBelow;
    if w.sender.pc.Leaving? && w.sender.session.Some? {
      PatientAppend(u, w.history.calls, Closing(w.sender.session.value.id));
    }
  }

  lemma ReceiveKeepsStop(u: Setup, s: Shared, ip: IpAddr, payload: seq<byte>)
    ensures Receive(u, s, ip, payload).stopAt == s.stopAt
  {
    hide Verdict;
  }

  lemma WaitedStep(u: Setup, w: World, step: Step)
    requires Shape(w) && Linked(w) && Waited(u, w) && Enabled(w, step)
    ensures Waited(u, Apply(u, w, step))
  {
    hide OnConnecting;
    hide OnTransport;
    hide OnLoop;
    hide Linked;
    hide AllPatient;
    hide Receive;
    match step
    case SenderStep(a) =>
      hide Waited;
      if Connecting(w.sender.pc) { WaitedConnecting(u, w, a); }
      else if Transporting(w.sender.pc) { WaitedTransport(u, w, a); }
      else { WaitedLoop(u, w); }
    case Datagram(peer, payload) => ReceiveKeepsStop(u, w.shared, CanonicalIp(peer), payload);
    case _ =>
  }

  /** No dial happens before the end of any failure pause that precedes it. */
  lemma DialsWait(u: Setup, calls: seq<Call>, i: nat)
    requires AllPatient(u, calls) && i < |calls|
    ensures Patient(u, calls[..i], calls[i])
    decreases |calls|
  {
    if i == |calls| - 1 {
      assert calls[..i] == Front(calls);
    } else {
      DialsWait(u, Front(calls), i);
      assert Front(calls)[..i] == calls[..i];
    }
  }
}
