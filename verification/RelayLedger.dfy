/** What every step of the relay keeps about the queue and its accounts: bounds, the
    frame in flight, first-in-first-out order, and counters that are exact tallies of
    the history. */
module RelayLedger {
  import opened Octets
  import opened Config
  import opened Framing
  import opened RelayModel
  import opened RelayMachine
  import Grammar
  import SourceTable

  // ---------- control ----------

  /** Which of session and pending frame exist at each point of the sender. */
  predicate Shape(w: World) {
    var s := w.sender;
    match s.pc
    case Mark => s.session.None? && s.pending.None?
    case Resolve => s.session.None? && s.pending.None?
    case Resolving(_) => s.session.None? && s.pending.None?
    case Dial(n) => s.session.None? && s.pending.None? && n > 0
    case ConnectFailed => s.session.None? && s.pending.None?
    case Retry => s.session.None? && s.pending.None?
    case Lost => s.session.None? && s.pending.None?
    case Backoff(_) => s.session.None? && s.pending.None?
    case Poll => s.session.Some? && s.pending.None?
    case Polled => s.session.Some? && s.pending.None?
    case Write => s.session.Some? && s.pending.Some?
    case Blocked => s.session.Some? && s.pending.Some?
    case Wrote => s.session.Some? && s.pending.Some?
    case Finished => s.session.Some? && s.pending.Some?
    case Failed => s.session.Some?
    case Draining => s.session.None?
    case Done => s.session.None?
    case _ => s.pending.Some? ==> s.session.Some?
  }

  lemma ShapeConnecting(u: Setup, w: World, a: Answer)
    requires Shape(w) && Connecting(w.sender.pc)
    ensures Shape(OnConnecting(u, w, a))
  {
  }

  lemma ShapeTransport(u: Setup, w: World, a: Answer)
    requires Shape(w) && Transporting(w.sender.pc)
    ensures Shape(OnTransport(u, w, a))
  {
  }

  lemma ShapeLoop(u: Setup, w: World)
    requires Shape(w) && !Connecting(w.sender.pc) && !Transporting(w.sender.pc)
    ensures Shape(OnLoop(u, w))
  {
  }

  lemma ShapeStep(u: Setup, w: World, step: Step)
    requires Shape(w) && Enabled(w, step)
    ensures Shape(Apply(u, w, step))
  {
    hide OnConnecting;
    hide OnTransport;
    hide OnLoop;
    match step
    case SenderStep(a) =>
      if Connecting(w.sender.pc) { ShapeConnecting(u, w, a); }
      else if Transporting(w.sender.pc) { ShapeTransport(u, w, a); }
      else { ShapeLoop(u, w); }
    case _ =>
  }

  /** A step that leaves queue, counters, source table and fates alone. */
  predicate Quiet(w: World, w': World) {
    && w'.shared == w.shared.(inFlight := w'.shared.inFlight, retries := w'.shared.retries)
    && (w'.shared.inFlight ==> w.shared.inFlight)
    && w'.history == w.history.(calls := w'.history.calls)
    && w'.now == w.now
  }

  /** Only three sender steps move messages. */
  predicate Moving(pc: Pc) {
    pc.Polled? || pc.Wrote? || pc.Draining?
  }

  lemma SenderMoves(u: Setup, w: World, a: Answer)
    ensures w.sender.pc.Polled? ==> OnSender(u, w, a) == OnPolled(w)
    ensures w.sender.pc.Wrote? ==> OnSender(u, w, a) == OnWrote(w)
    ensures w.sender.pc.Draining? ==> OnSender(u, w, a) == OnDraining(w)
  {
  }

  lemma SenderQuiet(u: Setup, w: World, a: Answer)
    requires !Moving(w.sender.pc)
    ensures Quiet(w, OnSender(u, w, a))
  {
    if Connecting(w.sender.pc) { ConnectingQuiet(u, w, a); }
    else if Transporting(w.sender.pc) { TransportQuiet(u, w, a); }
  }

  lemma ConnectingQuiet(u: Setup, w: World, a: Answer)
    requires Connecting(w.sender.pc)
    ensures Quiet(w, OnConnecting(u, w, a))
  {
  }

  lemma TransportQuiet(u: Setup, w: World, a: Answer)
    requires Transporting(w.sender.pc) && !Moving(w.sender.pc)
    ensures Quiet(w, OnTransport(u, w, a))
  {
  }

  // ---------- the queue ----------

  function Bytes(queue: seq<Message>): nat {
    if queue == [] then 0 else Bytes(queue[..|queue| - 1]) + |queue[|queue| - 1].payload|
  }

  lemma {:induction false} BytesPop(queue: seq<Message>)
    requires queue != []
    ensures Bytes(queue) == |queue[0].payload| + Bytes(queue[1..])
  {
    if |queue| > 1 {
      var last := |queue| - 1;
      BytesPop(queue[..last]);
      assert queue[..last][1..] == queue[1..][..last - 1];
    } else {
      assert queue[..0] == [];
    }
  }

  lemma BytesPush(queue: seq<Message>, m: Message)
    ensures Bytes(queue + [m]) == Bytes(queue) + |m.payload|
  {
    assert (queue + [m])[..|queue|] == queue;
  }

  /** A message the listener may queue. */
  ghost predicate Admissible(u: Setup, m: Message) {
    && Allowed(u.config, m.source)
    && |m.payload| <= u.config.maxMessageBytes
    && Grammar.Accepts(u.texts, m.payload)
  }

  ghost predicate QueueOk(u: Setup, s: Shared) {
    && s.queueDepth == |s.queue| <= u.config.maxMessages
    && s.queueBytes == Bytes(s.queue) <= u.config.maxBytes
    && (forall k | 0 <= k < |s.queue| :: Admissible(u, s.queue[k]))
    && (s.inFlight ==> s.queue != [])
  }

  lemma ReceiveQueue(u: Setup, s: Shared, ip: IpAddr, payload: seq<byte>)
    requires QueueOk(u, s)
    ensures QueueOk(u, Receive(u, s, ip, payload))
    ensures Receive(u, s, ip, payload).queue
         == if Verdict(u, s, ip, payload).None? then s.queue + [Message(payload, ip)] else s.queue
  {
    hide *;
    var counted := Counted(s, ip, Allowed(u.config, ip));
    ReceiveMeans(u, s, ip, payload);
    CountedQueue(u, s, ip, Allowed(u.config, ip));
    match Verdict(u, s, ip, payload)
    case Some(why) => DiscardQueue(u, counted, ip, why);
    case None =>
      VerdictMeans(u, s, ip, payload);
      EnqueueQueue(u, counted, Message(payload, ip));
  }

  lemma ReceiveMeans(u: Setup, s: Shared, ip: IpAddr, payload: seq<byte>)
    ensures var counted, verdict := Counted(s, ip, Allowed(u.config, ip)), Verdict(u, s, ip, payload);
            && (verdict.Some? ==> Receive(u, s, ip, payload) == Discard(counted, ip, verdict.value))
            && (verdict.None? ==> Receive(u, s, ip, payload) == Enqueue(counted, Message(payload, ip)))
  {
    hide Verdict;
    hide Counted;
    hide Discard;
    hide Enqueue;
  }

  lemma VerdictMeans(u: Setup, s: Shared, ip: IpAddr, payload: seq<byte>)
    requires Verdict(u, s, ip, payload).None?
    ensures Admissible(u, Message(payload, ip))
    ensures |s.queue| < u.config.maxMessages && s.queueBytes + |payload| <= u.config.maxBytes
  {
    hide Grammar.Accepts;
  }

  lemma CountedQueue(u: Setup, s: Shared, ip: IpAddr, allowed: bool)
    requires QueueOk(u, s)
    ensures QueueOk(u, Counted(s, ip, allowed))
    ensures Counted(s, ip, allowed).queue == s.queue && Counted(s, ip, allowed).queueBytes == s.queueBytes
  {
    hide Admissible;
    hide SourceTable.Received;
  }

  lemma DiscardQueue(u: Setup, s: Shared, ip: IpAddr, why: Reason)
    requires QueueOk(u, s)
    ensures QueueOk(u, Discard(s, ip, why)) && Discard(s, ip, why).queue == s.queue
  {
    hide Admissible;
    hide Charge;
    hide SourceTable.Dropped;
  }

  lemma EnqueueQueue(u: Setup, s: Shared, m: Message)
    requires QueueOk(u, s) && Admissible(u, m)
    requires |s.queue| < u.config.maxMessages && s.queueBytes + |m.payload| <= u.config.maxBytes
    ensures QueueOk(u, Enqueue(s, m)) && Enqueue(s, m).queue == s.queue + [m]
  {
    hide Admissible;
    hide Bytes;
    BytesPush(s.queue, m);
  }

  lemma FinishQueue(u: Setup, s: Shared, forwarded: bool, now: nat)
    requires QueueOk(u, s)
    ensures QueueOk(u, FinishFront(s, forwarded, now))
    ensures s.queue != [] ==> FinishFront(s, forwarded, now).queue == s.queue[1..]
  {
    hide Grammar.Accepts;
    hide SourceTable.Forwarded;
    hide SourceTable.Dropped;
    if s.queue != [] { BytesPop(s.queue); }
  }

  /** Between taking a frame and accounting for it, the frame is that of the message at
      the front of the queue and fits the session; the drained queue stays empty. */
  predicate FrontOk(w: World) {
    && (w.sender.pending.Some? && !w.sender.pc.Finished? && !w.sender.pc.Draining? && !w.sender.pc.Done? ==>
          && w.shared.queue != [] && w.sender.session.Some?
          && w.sender.pending.value == FrameOf(w.shared.queue[0].payload)
          && |w.sender.pending.value| <= w.sender.session.value.maxPlaintext)
    && (w.sender.pc.Leaving? || w.sender.pc.Draining? || w.sender.pc.Done? ==> w.shared.stopAt.Some?)
    && (w.sender.pc.Done? ==> w.shared.queue == [])
  }

  lemma QueueSender(u: Setup, w: World, a: Answer)
    requires Shape(w) && QueueOk(u, w.shared) && FrontOk(w)
    ensures QueueOk(u, OnSender(u, w, a).shared)
  {
    hide Grammar.Accepts;
    hide OnSender;
    SenderMoves(u, w, a);
    match w.sender.pc
    case Polled =>
      FinishQueue(u, w.shared, false, w.now);
      hide FinishFront;
    case Wrote =>
      FinishQueue(u, w.shared, true, w.now);
      hide FinishFront;
    case Draining =>
      hide DroppedAll;
    case _ => SenderQuiet(u, w, a);
  }

  lemma FrontConnecting(u: Setup, w: World, a: Answer)
    requires Shape(w) && FrontOk(w) && Connecting(w.sender.pc)
    ensures FrontOk(OnConnecting(u, w, a))
  {
  }

  lemma FrontTransport(u: Setup, w: World, a: Answer)
    requires Shape(w) && FrontOk(w) && Transporting(w.sender.pc)
    ensures FrontOk(OnTransport(u, w, a))
  {
  }

  lemma FrontLoop(u: Setup, w: World)
    requires Shape(w) && FrontOk(w) && !Connecting(w.sender.pc) && !Transporting(w.sender.pc)
    ensures FrontOk(OnLoop(u, w))
  {
  }

  lemma FrontSender(u: Setup, w: World, a: Answer)
    requires Shape(w) && FrontOk(w)
    ensures FrontOk(OnSender(u, w, a))
  {
    hide OnConnecting;
    hide OnTransport;
    hide OnLoop;
    if Connecting(w.sender.pc) { FrontConnecting(u, w, a); }
    else if Transporting(w.sender.pc) { FrontTransport(u, w, a); }
    else { FrontLoop(u, w); }
  }

  lemma QueueStep(u: Setup, w: World, step: Step)
    requires Shape(w) && FrontOk(w) && QueueOk(u, w.shared) && Enabled(w, step)
    ensures var w' := Apply(u, w, step); FrontOk(w') && QueueOk(u, w'.shared)
  {
    hide Grammar.Accepts;
    hide SourceTable.Received;
    hide SourceTable.Dropped;
    hide OnSender;
    match step
    case Datagram(peer, payload) => ReceiveQueue(u, w.shared, CanonicalIp(peer), payload);
    case SenderStep(a) =>
      QueueSender(u, w, a);
      FrontSender(u, w, a);
    case _ =>
  }

  // ---------- first in, first out, each message once ----------

  function Admitted(arrivals: seq<Arrival>): seq<Message> {
    if arrivals == [] then []
    else
      var a := arrivals[|arrivals| - 1];
      Admitted(arrivals[..|arrivals| - 1]) + if a.verdict.None? then [Message(a.payload, a.source)] else []
  }

  function Departed(outcomes: seq<Outcome>): seq<Message> {
    seq(|outcomes|, i requires 0 <= i < |outcomes| => outcomes[i].message)
  }

  /** Frames of the messages that were forwarded, in the order they left. */
  function ForwardedFrames(outcomes: seq<Outcome>): seq<seq<byte>> {
    if outcomes == [] then []
    else
      var o := outcomes[|outcomes| - 1];
      ForwardedFrames(outcomes[..|outcomes| - 1]) + if o.fate.Forwarded? then [FrameOf(o.message.payload)] else []
  }

  /** Frames whose write the transport reported as sent. */
  function SentFrames(calls: seq<Call>): seq<seq<byte>> {
    if calls == [] then []
    else
      var c := calls[|calls| - 1];
      SentFrames(calls[..|calls| - 1]) + if c.Writing? && c.outcome.Sent? then [c.frame] else []
  }

  /** Admitted messages are the departed ones followed by the queue; the frames sent are
      the frames of the forwarded messages, and at most one more not yet accounted. */
  predicate Fifo(w: World) {
    && Admitted(w.history.arrivals) == Departed(w.history.outcomes) + w.shared.queue
    && SentFrames(w.history.calls)
       == ForwardedFrames(w.history.outcomes)
          + if w.sender.pc.Wrote? && w.sender.pending.Some? then [w.sender.pending.value] else []
  }

  lemma AdmittedAppend(arrivals: seq<Arrival>, a: Arrival)
    ensures Admitted(arrivals + [a])
         == Admitted(arrivals) + if a.verdict.None? then [Message(a.payload, a.source)] else []
  {
    assert (arrivals + [a])[..|arrivals|] == arrivals;
  }

  lemma ForwardedAppend(outcomes: seq<Outcome>, o: Outcome)
    ensures ForwardedFrames(outcomes + [o])
         == ForwardedFrames(outcomes) + if o.fate.Forwarded? then [FrameOf(o.message.payload)] else []
  {
    assert (outcomes + [o])[..|outcomes|] == outcomes;
  }

  lemma SentAppend(calls: seq<Call>, c: Call)
    ensures SentFrames(calls + [c]) == SentFrames(calls) + if c.Writing? && c.outcome.Sent? then [c.frame] else []
  {
    assert (calls + [c])[..|calls|] == calls;
  }

  lemma {:induction false} ForwardedShutdown(outcomes: seq<Outcome>, queue: seq<Message>, when: Moment)
    ensures ForwardedFrames(outcomes + ShutdownOutcomes(queue, when)) == ForwardedFrames(outcomes)
  {
    if queue == [] {
      assert outcomes + ShutdownOutcomes(queue, when) == outcomes;
    } else {
      var front, last := queue[..|queue| - 1], queue[|queue| - 1];
      ForwardedShutdown(outcomes, front, when);
      assert outcomes + ShutdownOutcomes(queue, when) == (outcomes + ShutdownOutcomes(front, when)) + [Outcome(last, AtShutdown, when)];
      ForwardedAppend(outcomes + ShutdownOutcomes(front, when), Outcome(last, AtShutdown, when));
    }
  }

  /** Moving the front of the queue to the outcomes changes neither side. */
  lemma DepartedPop(outcomes: seq<Outcome>, queue: seq<Message>, fate: Fate, when: Moment)
    requires queue != []
    ensures Departed(outcomes + [Outcome(queue[0], fate, when)]) + queue[1..] == Departed(outcomes) + queue
  {
    assert queue == [queue[0]] + queue[1..];
    assert Departed(outcomes + [Outcome(queue[0], fate, when)]) == Departed(outcomes) + [queue[0]];
  }

  lemma DepartedAll(outcomes: seq<Outcome>, queue: seq<Message>, when: Moment)
    ensures Departed(outcomes + ShutdownOutcomes(queue, when)) + [] == Departed(outcomes) + queue
  {
  }

  lemma FifoDatagram(u: Setup, w: World, peer: IpAddr, payload: seq<byte>)
    requires Fifo(w) && QueueOk(u, w.shared)
    ensures Fifo(OnDatagram(u, w, peer, payload))
  {
    hide QueueOk;
    hide Verdict;
    hide Receive;
    hide CanonicalIp;
    hide Admitted;
    hide ForwardedFrames;
    hide SentFrames;
    var ip := CanonicalIp(peer);
    ReceiveQueue(u, w.shared, ip, payload);
    AdmittedAppend(w.history.arrivals, Heard(u, w, peer, payload));
  }

  /** What a sender step asks of the transport. */
  function CallsOf(u: Setup, w: World, a: Answer): seq<Call>
    requires Shape(w)
  {
    match w.sender.pc
    case Dial(addresses) =>
      var dialled := Dialled(w.sender.attempts % addresses, addresses, w.now);
      if a.ok then [dialled, Connected(Session(w.sender.attempts, a.amount))] else [dialled]
    case Retry => [Resting(true, JitteredMs(w.sender.delay, NextJitter(w.sender.jitter), u.config.retryMaxMs), w.now)]
    case Poll => [Polling(w.sender.session.value.id, a.ok)]
    case Write => [Writing(w.sender.session.value.id, w.sender.pending.value, a.write, w.now)]
    case Failed => [Closing(w.sender.session.value.id)]
    case Lost => [Resting(false, w.sender.delay, w.now)]
    case Leaving => if w.sender.session.Some? then [Closing(w.sender.session.value.id)] else []
    case _ => []
  }

  lemma CallsConnecting(u: Setup, w: World, a: Answer)
    requires Shape(w) && Connecting(w.sender.pc)
    ensures OnConnecting(u, w, a).history.calls == w.history.calls + CallsOf(u, w, a)
  {
  }

  lemma CallsTransport(u: Setup, w: World, a: Answer)
    requires Shape(w) && Transporting(w.sender.pc)
    ensures OnTransport(u, w, a).history.calls == w.history.calls + CallsOf(u, w, a)
  {
    hide FinishFront;
  }

  lemma CallsLoop(u: Setup, w: World, a: Answer)
    requires Shape(w) && !Connecting(w.sender.pc) && !Transporting(w.sender.pc)
    ensures OnLoop(u, w).history.calls == w.history.calls + CallsOf(u, w, a)
  {
    hide Drain;
  }

  lemma CallsAdded(u: Setup, w: World, a: Answer)
    requires Shape(w)
    ensures OnSender(u, w, a).history.calls == w.history.calls + CallsOf(u, w, a)
  {
    hide OnConnecting;
    hide OnTransport;
    hide OnLoop;
    hide CallsOf;
    if Connecting(w.sender.pc) { CallsConnecting(u, w, a); }
    else if Transporting(w.sender.pc) { CallsTransport(u, w, a); }
    else { CallsLoop(u, w, a); }
  }

  /** Only a write reported as sent adds to the sent frames. */
  lemma SentSender(u: Setup, w: World, a: Answer)
    requires Shape(w)
    ensures SentFrames(OnSender(u, w, a).history.calls)
         == SentFrames(w.history.calls)
            + if w.sender.pc.Write? && a.write.Sent? then [w.sender.pending.value] else []
  {
    hide OnSender;
    hide NextJitter;
    CallsAdded(u, w, a);
    var calls, more := w.history.calls, CallsOf(u, w, a);
    if |more| == 2 {
      assert calls + more == (calls + [more[0]]) + [more[1]];
      SentAppend(calls, more[0]);
      SentAppend(calls + [more[0]], more[1]);
    } else if |more| == 1 {
      assert more == [more[0]];
      SentAppend(calls, more[0]);
    } else {
      assert calls + more == calls;
    }
  }

  /** The sender reaches the point after a successful write only by such a write. */
  lemma WroteAfter(u: Setup, w: World, a: Answer)
    requires Shape(w)
    ensures var w' := OnSender(u, w, a);
            (w'.sender.pc.Wrote? <==> w.sender.pc.Write? && a.write.Sent?)
            && (w'.sender.pc.Wrote? ==> w'.sender.pending == w.sender.pending)
  {
    hide OnConnecting;
    hide OnTransport;
    hide OnLoop;
    if Connecting(w.sender.pc) { WroteAfterConnecting(u, w, a); }
    else if Transporting(w.sender.pc) { WroteAfterTransport(u, w, a); }
    else { WroteAfterLoop(u, w); }
  }

  lemma WroteAfterConnecting(u: Setup, w: World, a: Answer)
    requires Connecting(w.sender.pc)
    ensures !OnConnecting(u, w, a).sender.pc.Wrote?
  {
  }

  lemma WroteAfterTransport(u: Setup, w: World, a: Answer)
    requires Shape(w) && Transporting(w.sender.pc)
    ensures var w' := OnTransport(u, w, a);
            (w'.sender.pc.Wrote? <==> w.sender.pc.Write? && a.write.Sent?)
            && (w'.sender.pc.Wrote? ==> w'.sender.pending == w.sender.pending)
  {
    hide FinishFront;
  }

  lemma WroteAfterLoop(u: Setup, w: World)
    requires !Connecting(w.sender.pc) && !Transporting(w.sender.pc)
    ensures !OnLoop(u, w).sender.pc.Wrote?
  {
    hide Drain;
  }

  lemma FifoMove(w: World, w': World, fate: Fate)
    requires Fifo(w) && w.shared.queue != [] && (w.sender.pc.Wrote? <==> fate.Forwarded?)
    requires fate.Forwarded? ==> w.sender.pending == Some(FrameOf(w.shared.queue[0].payload))
    requires w'.shared.queue == w.shared.queue[1..] && !w'.sender.pc.Wrote?
    requires w'.history == w.history.(outcomes := w.history.outcomes + [Outcome(w.shared.queue[0], fate, Now(w))])
    ensures Fifo(w')
  {
    DepartedPop(w.history.outcomes, w.shared.queue, fate, Now(w));
    ForwardedAppend(w.history.outcomes, Outcome(w.shared.queue[0], fate, Now(w)));
  }

  lemma FifoQuiet(w: World, w': World)
    requires Fifo(w) && Quiet(w, w') && !w.sender.pc.Wrote?
    requires SentFrames(w'.history.calls) == SentFrames(w.history.calls)
               + if w'.sender.pc.Wrote? && w'.sender.pending.Some? then [w'.sender.pending.value] else []
    ensures Fifo(w')
  {
  }

  lemma FifoPolled(u: Setup, w: World)
    requires Shape(w) && QueueOk(u, w.shared) && Fifo(w) && w.sender.pc.Polled?
    ensures Fifo(OnPolled(w))
  {
    FinishQueue(u, w.shared, false, w.now);
    hide FinishFront;
    hide QueueOk;
    hide Fifo;
    var w' := OnPolled(w);
    if w'.history.outcomes != w.history.outcomes {
      FifoMove(w, w', TooLarge);
    } else {
      FifoSame(w, w');
    }
  }

  lemma FifoSame(w: World, w': World)
    requires Fifo(w) && w'.history == w.history.(taken := w'.history.taken) && w'.shared.queue == w.shared.queue
    requires !w.sender.pc.Wrote? && !w'.sender.pc.Wrote?
    ensures Fifo(w')
  {
  }

  lemma FifoDraining(w: World)
    requires Fifo(w) && w.sender.pc.Draining?
    ensures Fifo(OnDraining(w))
  {
    hide DroppedAll;
    DepartedAll(w.history.outcomes, w.shared.queue, Now(w));
    ForwardedShutdown(w.history.outcomes, w.shared.queue, Now(w));
  }

  lemma FifoSender(u: Setup, w: World, a: Answer)
    requires Shape(w) && FrontOk(w) && QueueOk(u, w.shared) && Fifo(w)
    ensures Fifo(OnSender(u, w, a))
  {
    hide Grammar.Accepts;
    hide OnSender;
    hide Fifo;
    hide OnDraining;
    SenderMoves(u, w, a);
    match w.sender.pc
    case Polled => FifoPolled(u, w);
    case Wrote =>
      FinishQueue(u, w.shared, true, w.now);
      hide FinishFront;
      hide QueueOk;
      FifoMove(w, OnWrote(w), Fate.Forwarded(Second(w.shared, w.now)));
    case Draining => FifoDraining(w);
    case _ =>
      SenderQuiet(u, w, a);
      SentSender(u, w, a);
      WroteAfter(u, w, a);
      FifoQuiet(w, OnSender(u, w, a));
  }

  lemma FifoStep(u: Setup, w: World, step: Step)
    requires Shape(w) && FrontOk(w) && QueueOk(u, w.shared) && Fifo(w) && Enabled(w, step)
    ensures Fifo(Apply(u, w, step))
  {
    hide OnSender;
    hide OnDatagram;
    match step
    case Datagram(peer, payload) => FifoDatagram(u, w, peer, payload);
    case SenderStep(a) => FifoSender(u, w, a);
    case _ =>
  }

  // ---------- counters are tallies of the history ----------

  function Refused(arrivals: seq<Arrival>, why: Reason): nat {
    if arrivals == [] then 0
    else Refused(arrivals[..|arrivals| - 1], why) + if arrivals[|arrivals| - 1].verdict == Some(why) then 1 else 0
  }

  function ForwardedCount(outcomes: seq<Outcome>): nat {
    if outcomes == [] then 0
    else ForwardedCount(outcomes[..|outcomes| - 1]) + if outcomes[|outcomes| - 1].fate.Forwarded? then 1 else 0
  }

  /** Messages that left the queue with the given unsuccessful fate. */
  function LostCount(outcomes: seq<Outcome>, fate: Fate): nat {
    if outcomes == [] then 0
    else LostCount(outcomes[..|outcomes| - 1], fate) + if outcomes[|outcomes| - 1].fate == fate then 1 else 0
  }

  predicate Tallies(w: World) {
    var s, a, o := w.shared, w.history.arrivals, w.history.outcomes;
    && s.received == |a|
    && s.forwarded == ForwardedCount(o)
    && s.drops.sourceDenied == Refused(a, SourceDenied)
    && s.drops.invalid == Refused(a, Invalid)
    && s.drops.queueFull == Refused(a, QueueFull)
    && s.drops.oversized == Refused(a, Oversized) + LostCount(o, TooLarge)
    && s.drops.shutdown == Refused(a, ShutDown) + LostCount(o, AtShutdown)
    && s.dropped == s.drops.invalid + s.drops.oversized + s.drops.queueFull + s.drops.shutdown + s.drops.sourceDenied
  }

  lemma RefusedAppend(arrivals: seq<Arrival>, a: Arrival)
    ensures forall why :: Refused(arrivals + [a], why) == Refused(arrivals, why) + if a.verdict == Some(why) then 1 else 0
  {
    assert (arrivals + [a])[..|arrivals|] == arrivals;
  }

  lemma CountsAppend(outcomes: seq<Outcome>, o: Outcome)
    ensures ForwardedCount(outcomes + [o]) == ForwardedCount(outcomes) + if o.fate.Forwarded? then 1 else 0
    ensures forall fate :: LostCount(outcomes + [o], fate) == LostCount(outcomes, fate) + if o.fate == fate then 1 else 0
  {
    assert (outcomes + [o])[..|outcomes|] == outcomes;
  }

  lemma {:induction false} CountsShutdown(outcomes: seq<Outcome>, queue: seq<Message>, when: Moment)
    ensures var all := outcomes + ShutdownOutcomes(queue, when);
            && ForwardedCount(all) == ForwardedCount(outcomes)
            && LostCount(all, TooLarge) == LostCount(outcomes, TooLarge)
            && LostCount(all, AtShutdown) == LostCount(outcomes, AtShutdown) + |queue|
  {
    if queue == [] {
      assert outcomes + ShutdownOutcomes(queue, when) == outcomes;
    } else {
      var front, last := queue[..|queue| - 1], queue[|queue| - 1];
      CountsShutdown(outcomes, front, when);
      assert outcomes + ShutdownOutcomes(queue, when) == (outcomes + ShutdownOutcomes(front, when)) + [Outcome(last, AtShutdown, when)];
      CountsAppend(outcomes + ShutdownOutcomes(front, when), Outcome(last, AtShutdown, when));
    }
  }

  lemma TalliesFinish(w: World, w': World, fate: Fate, forwarded: bool)
    requires Tallies(w) && w.shared.queue != [] && (forwarded <==> fate.Forwarded?) && !fate.AtShutdown?
    requires w'.shared == FinishFront(w.shared, forwarded, w.now)
    requires w'.history == w.history.(outcomes := w.history.outcomes + [Outcome(w.shared.queue[0], fate, Now(w))])
    ensures Tallies(w')
  {
    hide SourceTable.Forwarded;
    hide SourceTable.Dropped;
    CountsAppend(w.history.outcomes, Outcome(w.shared.queue[0], fate, Now(w)));
  }

  lemma TalliesSender(u: Setup, w: World, a: Answer)
    requires Shape(w) && FrontOk(w) && Tallies(w)
    ensures Tallies(OnSender(u, w, a))
  {
    hide OnSender;
    hide FinishFront;
    hide DroppedAll;
    SenderMoves(u, w, a);
    match w.sender.pc
    case Polled =>
      var w' := OnPolled(w);
      if w'.history.outcomes != w.history.outcomes { TalliesFinish(w, w', TooLarge, false); }
    case Wrote => TalliesFinish(w, OnWrote(w), Fate.Forwarded(Second(w.shared, w.now)), true);
    case Draining => CountsShutdown(w.history.outcomes, w.shared.queue, Now(w));
    case _ => SenderQuiet(u, w, a);
  }

  lemma TalliesDatagram(u: Setup, w: World, peer: IpAddr, payload: seq<byte>)
    requires Tallies(w)
    ensures Tallies(OnDatagram(u, w, peer, payload))
  {
    hide Verdict;
    hide SourceTable.Received;
    hide SourceTable.Dropped;
    RefusedAppend(w.history.arrivals, Heard(u, w, peer, payload));
  }

  lemma TalliesStep(u: Setup, w: World, step: Step)
    requires Shape(w) && FrontOk(w) && Tallies(w) && Enabled(w, step)
    ensures Tallies(Apply(u, w, step))
  {
    hide OnSender;
    hide OnDatagram;
    match step
    case Datagram(peer, payload) => TalliesDatagram(u, w, peer, payload);
    case SenderStep(a) => TalliesSender(u, w, a);
    case _ =>
  }

  lemma {:induction false} Balance(arrivals: seq<Arrival>)
    ensures |Admitted(arrivals)| + Refused(arrivals, SourceDenied) + Refused(arrivals, ShutDown)
            + Refused(arrivals, Oversized) + Refused(arrivals, Invalid) + Refused(arrivals, QueueFull) == |arrivals|
  {
    if arrivals != [] {
      Balance(arrivals[..|arrivals| - 1]);
      match arrivals[|arrivals| - 1].verdict
      case Some(SourceDenied) =>
      case Some(_) =>
      case None =>
    }
  }

  lemma {:induction false} Fates(outcomes: seq<Outcome>)
    ensures ForwardedCount(outcomes) + LostCount(outcomes, TooLarge) + LostCount(outcomes, AtShutdown) == |outcomes|
  {
    if outcomes != [] {
      Fates(outcomes[..|outcomes| - 1]);
    }
  }

  /** Received is forwarded plus dropped plus queued. */
  lemma Conservation(w: World)
    requires Fifo(w) && Tallies(w)
    ensures w.shared.received == w.shared.forwarded + w.shared.dropped + |w.shared.queue|
  {
    Balance(w.history.arrivals);
    Fates(w.history.outcomes);
    assert |Admitted(w.history.arrivals)| == |w.history.outcomes| + |w.shared.queue|;
  }
}
