/** The relay as a concurrent step system (crates/core/src/relay.rs): the listener and
    sender threads, `stop`, the clock and the resolver interleave, one lock section or one
    private stretch of code at a time. The environment answers every call it is asked. */
module RelayMachine {
  import opened Octets
  import opened Config
  import opened RelayModel
  import opened Framing
  import SourceTable

  // ---------- what the threads hold between lock sections ----------

  datatype Session = Session(id: nat, maxPlaintext: nat)

  /** Where the sender is in `send`. */
  datatype Pc =
    | Check                 // loop head: stopping and due or idle?
    | Mark                  // no session: clears in-flight
    | Resolve               // entering `resolve`
    | Resolving(until: nat) // waiting for the lookup
    | Dial(addresses: nat)  // connecting to one of the addresses
    | ConnectFailed
    | Retry                 // counts a failed connection
    | Poll                  // no frame pending
    | Polled
    | Write                 // a frame is pending
    | Blocked               // the write would block
    | Wrote                 // the write succeeded, not yet accounted
    | Finished              // accounted, private state not yet reset
    | Failed                // poll or write failed, session not yet closed
    | Lost                  // session closed, not yet counted
    | Idle
    | Pause(wake: nat)      // short pause, then loop head
    | Backoff(wake: nat)    // failure pause, then the delay doubles
    | Leaving               // left the loop: closes the session
    | Draining
    | Done

  datatype Sender = Sender(
    pc: Pc, session: Option<Session>, pending: Option<seq<byte>>, writeStarted: nat,
    delay: nat, nextSend: nat, attempts: nat, jitter: bv64, lookup: bool)

  datatype Listener = Looping | Receiving | Stopped

  /** The detached resolver thread: at most a reply waits in its channel. */
  datatype Reply = NoReply | Addresses(count: nat) | Failure | Died
  datatype Resolver = Resolver(running: nat, reply: Reply)

  // ---------- what happened, in order ----------

  /** When something happened: the clock, and how much of each record there was before. */
  datatype Moment = Moment(at: nat, arrivals: nat, outcomes: nat, calls: nat, stops: nat)

  /** A datagram and the listener's verdict on it (`None`: admitted to the queue). */
  datatype Arrival = Arrival(peer: IpAddr, source: IpAddr, payload: seq<byte>, verdict: Option<Reason>, when: Moment)

  datatype Fate = Forwarded(second: nat) | TooLarge | AtShutdown
  /** A message that left the queue, and how. */
  datatype Outcome = Outcome(message: Message, fate: Fate, when: Moment)

  /** A call of `stop`, or a failure of the listener, which stops the relay too. */
  datatype StopRequest = StopRequest(failed: bool, at: nat)

  /** A frame made of the front message, to be written. */
  datatype Taken = Taken(frame: seq<byte>, when: Moment)

  datatype WriteOutcome = Sent | WouldBlock | Error

  /** Everything the sender asks of the transport, and its failure pauses. */
  datatype Call =
    | Dialled(remote: nat, addresses: nat, at: nat)
    | Connected(session: Session)
    | Polling(id: nat, ok: bool)
    | Writing(id: nat, frame: seq<byte>, outcome: WriteOutcome, at: nat)
    | Closing(id: nat)
    | Resting(connecting: bool, ms: nat, at: nat)

  datatype History = History(
    start: nat, seed: bv64, arrivals: seq<Arrival>, outcomes: seq<Outcome>, calls: seq<Call>,
    stops: seq<StopRequest>, taken: seq<Taken>)

  datatype World = World(
    shared: Shared, listener: Listener, sender: Sender, resolver: Resolver, now: nat, history: History)

  function Now(w: World): Moment {
    var h := w.history;
    Moment(w.now, |h.arrivals|, |h.outcomes|, |h.calls|, |h.stops|)
  }

  // ---------- steps ----------

  /** What the environment answers to the call a sender step makes, if it makes one. */
  datatype Answer = Answer(ok: bool, amount: nat, write: WriteOutcome)

  datatype Step =
    | Tick(nanos: nat)
    | ListenerCheck
    | ListenerQuiet
    | Datagram(peer: IpAddr, payload: seq<byte>)
    | ListenerError
    | StopCalled
    | StopJoined
    | LookupDone(reply: Reply)
    | SenderStep(answer: Answer)

  predicate Enabled(w: World, step: Step) {
    match step
    case Tick(_) => true
    case ListenerCheck => w.listener.Looping?
    case ListenerQuiet => w.listener.Receiving?
    case Datagram(_, _) => w.listener.Receiving?
    case ListenerError => w.listener.Receiving?
    case StopCalled => true
    case StopJoined => w.listener.Stopped? && w.sender.pc.Done?
    case LookupDone(reply) => w.resolver.running > 0 && !reply.NoReply?
    case SenderStep(_) =>
      match w.sender.pc
      case Done => false
      case Pause(wake) => w.now >= wake || Expired(w.shared, w.now)
      case Backoff(wake) => w.now >= wake || Expired(w.shared, w.now)
      case _ => true
  }

  ghost function Apply(u: Setup, w: World, step: Step): World {
    match step
    case Tick(nanos) => w.(now := w.now + nanos)
    case ListenerCheck => w.(listener := if w.shared.stopAt.Some? then Stopped else Receiving)
    case ListenerQuiet => w.(listener := Looping)
    case Datagram(peer, payload) => OnDatagram(u, w, peer, payload)
    case ListenerError => Stopping(w, true).(listener := Stopped, shared := ListenerFailed(w.shared, w.now))
    case StopCalled => Stopping(w, false).(shared := Stop(u, w.shared, w.now))
    case StopJoined => w.(shared := w.shared.(inFlight := false))
    case LookupDone(reply) => w.(resolver := Resolver(if w.resolver.running > 0 then w.resolver.running - 1 else 0, reply))
    case SenderStep(answer) => OnSender(u, w, answer)
  }

  ghost function Heard(u: Setup, w: World, peer: IpAddr, payload: seq<byte>): Arrival {
    var ip := CanonicalIp(peer);
    Arrival(peer, ip, payload, Verdict(u, w.shared, ip, payload), Now(w))
  }

  ghost function OnDatagram(u: Setup, w: World, peer: IpAddr, payload: seq<byte>): World {
    w.(listener := Looping, shared := Receive(u, w.shared, CanonicalIp(peer), payload),
       history := w.history.(arrivals := w.history.arrivals + [Heard(u, w, peer, payload)]))
  }

  function Stopping(w: World, failed: bool): World {
    w.(history := w.history.(stops := w.history.stops + [StopRequest(failed, w.now)]))
  }

  function Called(w: World, call: Call): World {
    w.(history := w.history.(calls := w.history.calls + [call]))
  }

  function Goto(w: World, pc: Pc): World {
    w.(sender := w.sender.(pc := pc))
  }

  const SHORT_PAUSE := 10 * MILLI

  /** The part of `send` that establishes a session. */
  predicate Connecting(pc: Pc) {
    pc.Mark? || pc.Resolve? || pc.Resolving? || pc.Dial? || pc.ConnectFailed? || pc.Retry?
  }

  /** The part that uses the session. */
  predicate Transporting(pc: Pc) {
    pc.Poll? || pc.Polled? || pc.Write? || pc.Blocked? || pc.Wrote? || pc.Finished? || pc.Failed? || pc.Lost?
  }

  function OnSender(u: Setup, w: World, a: Answer): World {
    if Connecting(w.sender.pc) then OnConnecting(u, w, a)
    else if Transporting(w.sender.pc) then OnTransport(u, w, a)
    else OnLoop(u, w)
  }

  function OnConnecting(u: Setup, w: World, a: Answer): World
    requires Connecting(w.sender.pc)
  {
    match w.sender.pc
    case Mark => Goto(w.(shared := w.shared.(inFlight := false)), Resolve)
    case Resolve => OnResolve(u, w, a)
    case Resolving(until) => OnResolving(w, until, a)
    case Dial(addresses) => OnDial(w, addresses, a)
    case ConnectFailed => Goto(w, if Expired(w.shared, w.now) then Leaving else Retry)
    case Retry => OnRetry(u, w)
  }

  function OnTransport(u: Setup, w: World, a: Answer): World
    requires Transporting(w.sender.pc)
  {
    match w.sender.pc
    case Poll => OnPoll(w, a)
    case Polled => OnPolled(w)
    case Write => OnWrite(w, a)
    case Blocked => Goto(w, if w.now - w.sender.writeStarted > u.config.handshakeTimeoutMs * MILLI then Failed else Idle)
    case Wrote => OnWrote(w)
    case Finished => OnFinished(u, w)
    case Failed => OnFailed(w)
    case Lost => OnLost(w)
  }

  function OnLoop(u: Setup, w: World): World
    requires !Connecting(w.sender.pc) && !Transporting(w.sender.pc)
  {
    match w.sender.pc
    case Check => OnCheck(w)
    case Idle => OnIdle(w)
    case Pause(_) => Goto(w, Check)
    case Backoff(_) => OnBackoff(u, w)
    case Leaving => OnLeaving(w)
    case Draining => OnDraining(w)
    case Done => w
  }

  /** Where the loop body starts for the present session and frame. */
  function Body(s: Sender): Pc {
    if s.session.None? then Mark else if s.pending.None? then Poll else Write
  }

  function OnCheck(w: World): World {
    var leave := w.shared.stopAt.Some? && (w.now >= w.shared.stopAt.value || w.shared.queue == []);
    Goto(w, if leave then Leaving else Body(w.sender))
  }

  function OnResolve(u: Setup, w: World, a: Answer): World {
    var waiting := Resolving(w.now + u.config.handshakeTimeoutMs * MILLI);
    if w.sender.lookup then Goto(w, waiting)
    else if !a.ok then Goto(w, ConnectFailed) // unusable host name, or no thread
    else w.(resolver := Resolver(w.resolver.running + 1, NoReply), sender := w.sender.(lookup := true, pc := waiting))
  }

  function OnResolving(w: World, until: nat, a: Answer): World {
    var taken := w.(resolver := w.resolver.(reply := NoReply), sender := w.sender.(lookup := false));
    if Expired(w.shared, w.now) then Goto(w, ConnectFailed)
    else match w.resolver.reply
      case Addresses(count) => Goto(taken, if count == 0 then ConnectFailed else Dial(count))
      case Failure => Goto(taken, ConnectFailed)
      case Died => Goto(taken, ConnectFailed)
      case NoReply => if w.now >= until then Goto(w, ConnectFailed) else w
  }

  function OnDial(w: World, addresses: nat, a: Answer): World {
    var remote := if addresses == 0 then 0 else w.sender.attempts % addresses;
    var dialled := Called(w, Dialled(remote, addresses, w.now)).(sender := w.sender.(attempts := w.sender.attempts + 1));
    if !a.ok then Goto(dialled, ConnectFailed)
    else
      var session := Session(w.sender.attempts, a.amount);
      Called(dialled, Connected(session)).(
        sender := dialled.sender.(session := Some(session), pending := None, pc := Poll))
  }

  /** The xorshift step of the scheduling jitter. */
  function NextJitter(j: bv64): bv64 {
    var a := j ^ (j << 13);
    var b := a ^ (a >> 7);
    b ^ (b << 17)
  }

  function Least(a: nat, b: nat): nat { if a <= b then a else b }

  function JitteredMs(delay: nat, jitter: bv64, max: nat): nat {
    Least(delay * 3 / 4 + (jitter as nat) % (delay / 2 + 1), max)
  }

  function OnRetry(u: Setup, w: World): World {
    var jitter := NextJitter(w.sender.jitter);
    var ms := JitteredMs(w.sender.delay, jitter, u.config.retryMaxMs);
    Called(w, Resting(true, ms, w.now)).(
      shared := NoteRetry(w.shared),
      sender := w.sender.(jitter := jitter, pc := Backoff(w.now + ms * MILLI)))
  }

  function OnPoll(w: World, a: Answer): World {
    if w.sender.session.None? then w
    else Goto(Called(w, Polling(w.sender.session.value.id, a.ok)), if a.ok then Polled else Failed)
  }

  function Ended(w: World, fate: Fate): World {
    if w.shared.queue == [] then w
    else w.(history := w.history.(outcomes := w.history.outcomes + [Outcome(w.shared.queue[0], fate, Now(w))]))
  }

  function OnPolled(w: World): World {
    if w.now < w.sender.nextSend || w.shared.queue == [] || w.sender.session.None? then Goto(w, Idle)
    else
      var frame := FrameOf(w.shared.queue[0].payload);
      if |frame| > w.sender.session.value.maxPlaintext then
        Goto(Ended(w, TooLarge).(shared := FinishFront(w.shared, false, w.now)), Check)
      else
        w.(shared := w.shared.(inFlight := true),
           sender := w.sender.(pending := Some(frame), writeStarted := w.now, pc := Write),
           history := w.history.(taken := w.history.taken + [Taken(frame, Now(w))]))
  }

  function OnWrite(w: World, a: Answer): World {
    if w.sender.session.None? || w.sender.pending.None? then w
    else
      Goto(Called(w, Writing(w.sender.session.value.id, w.sender.pending.value, a.write, w.now)),
           match a.write case Sent => Wrote case WouldBlock => Blocked case Error => Failed)
  }

  function OnWrote(w: World): World {
    Goto(Ended(w, Forwarded(Second(w.shared, w.now))).(shared := FinishFront(w.shared, true, w.now)), Finished)
  }

  function OnFinished(u: Setup, w: World): World {
    w.(sender := w.sender.(
         pending := None, delay := u.config.retryInitialMs, nextSend := w.now + u.config.interval, pc := Idle))
  }

  function OnFailed(w: World): World {
    if w.sender.session.None? then w
    else Called(w, Closing(w.sender.session.value.id)).(
           sender := w.sender.(session := None, pending := None, pc := Lost))
  }

  function OnLost(w: World): World {
    Called(w, Resting(false, w.sender.delay, w.now)).(
      shared := NoteRetry(w.shared.(inFlight := false)),
      sender := w.sender.(pc := Backoff(w.now + w.sender.delay * MILLI)))
  }

  function OnIdle(w: World): World {
    if w.sender.pending.Some? || w.shared.queue == [] then Goto(w, Pause(w.now + SHORT_PAUSE))
    else
      var wait := if w.sender.nextSend > w.now then w.sender.nextSend - w.now else 0;
      Goto(w, Pause(w.now + Least(wait, SHORT_PAUSE)))
  }

  function OnBackoff(u: Setup, w: World): World {
    w.(sender := w.sender.(delay := Least(w.sender.delay * 2, u.config.retryMaxMs), pc := Check))
  }

  function OnLeaving(w: World): World {
    if w.sender.session.None? then Goto(w, Draining)
    else Called(w, Closing(w.sender.session.value.id)).(sender := w.sender.(session := None, pc := Draining))
  }

  function ShutdownOutcomes(queue: seq<Message>, when: Moment): seq<Outcome> {
    seq(|queue|, i requires 0 <= i < |queue| => Outcome(queue[i], AtShutdown, when))
  }

  function OnDraining(w: World): World {
    Goto(w.(history := w.history.(outcomes := w.history.outcomes + ShutdownOutcomes(w.shared.queue, Now(w))),
            shared := Drain(w.shared)), Done)
  }

  // ---------- runs ----------

  /** Both threads at their start; the jitter seed is any odd word. */
  predicate Init(u: Setup, w: World) {
    && Valid(u.config)
    && w.shared == Fresh(w.now)
    && w.listener == Looping
    && w.resolver == Resolver(0, NoReply)
    && w.history == History(w.now, w.sender.jitter, [], [], [], [], [])
    && w.sender.pc == Check && w.sender.session.None? && w.sender.pending.None? && !w.sender.lookup
    && w.sender.delay == u.config.retryInitialMs && w.sender.attempts == 0
    && w.sender.writeStarted == w.sender.nextSend == w.now
    && w.sender.jitter & 1 == 1
  }

  ghost predicate Feasible(u: Setup, w: World, steps: seq<Step>)
    decreases |steps|
  {
    steps == [] || (Enabled(w, steps[0]) && Feasible(u, Apply(u, w, steps[0]), steps[1..]))
  }

  ghost function Execute(u: Setup, w: World, steps: seq<Step>): World
    decreases |steps|
  {
    if steps == [] then w else Execute(u, Apply(u, w, steps[0]), steps[1..])
  }

  /** A world some run of the relay reaches. */
  ghost predicate Reachable(u: Setup, w: World) {
    exists start, steps :: Init(u, start) && Feasible(u, start, steps) && Execute(u, start, steps) == w
  }
}
