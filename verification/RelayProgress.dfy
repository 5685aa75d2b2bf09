/** No reachable world of the relay is stuck: as long as no stop is requested, some
    continuation lets the message at the front of the queue go, and sends it unless the
    session already open is too small for it. */
module RelayProgress {
  import opened Octets
  import opened Config
  import opened Framing
  import opened RelayModel
  import opened RelayMachine
  import opened RelayLedger
  import opened RelayProtocol
  import opened RelayRecord
  import opened RelayRuns
  import opened RelayRate

  // ---------- the way out ----------

  /** What the environment does next to let the front message go. */
  function Helpful(w: World): Step
    requires w.shared.queue != []
  {
    var answer := SenderStep(Answer(true, |FrameOf(w.shared.queue[0].payload)|, Sent));
    match w.sender.pc
    case Pause(wake) => if w.now < wake then Tick(wake - w.now) else answer
    case Backoff(wake) => if w.now < wake then Tick(wake - w.now) else answer
    case Polled => if w.now < w.sender.nextSend then Tick(w.sender.nextSend - w.now) else answer
    case Resolving(_) => if w.resolver.reply.NoReply? then LookupDone(Addresses(1)) else answer
    case _ => answer
  }

  function Distance(pc: Pc): nat {
    match pc
    case Blocked => 30
    case Failed => 29
    case ConnectFailed => 29
    case Lost => 28
    case Retry => 28
    case Backoff(_) => 27
    case Finished => 27
    case Idle => 26
    case Pause(_) => 25
    case Check => 20
    case Mark => 19
    case Resolve => 18
    case Resolving(_) => 17
    case Dial(_) => 10
    case Poll => 9
    case Polled => 8
    case Write => 7
    case Wrote => 6
    case _ => 0
  }

  /** A reply waits in the channel that brings no address. */
  predicate Useless(r: Reply) {
    r.Failure? || r.Died? || (r.Addresses? && r.count == 0)
  }

  predicate MustWait(w: World) {
    match w.sender.pc
    case Pause(wake) => w.now < wake
    case Backoff(wake) => w.now < wake
    case Polled => w.now < w.sender.nextSend
    case Resolving(_) => w.resolver.reply.NoReply?
    case _ => false
  }

  function Remaining(w: World): nat {
    2 * Distance(w.sender.pc) + (if MustWait(w) then 1 else 0) + if Useless(w.resolver.reply) then 200 else 0
  }

  /** The queue and the fates so far are those of `w`, and any other session than that of
      `w` carries the front message. */
  predicate Same(w: World, v: World) {
    && v.shared.queue == w.shared.queue && v.shared.stopAt.None?
    && v.history == w.history.(calls := v.history.calls, taken := v.history.taken)
    && (v.sender.session.Some? && v.sender.session != w.sender.session && w.shared.queue != [] ==>
          v.sender.session.value.maxPlaintext == |FrameOf(w.shared.queue[0].payload)|)
  }

  /** The front message has just left. */
  predicate Gone(w: World, v: World) {
    && w.shared.queue != [] && v.shared.queue == w.shared.queue[1..]
    && |v.history.outcomes| == |w.history.outcomes| + 1
    && w.history.outcomes == v.history.outcomes[..|w.history.outcomes|]
    && Last(v.history.outcomes).message == w.shared.queue[0]
    && v.history.stops == w.history.stops && v.history.arrivals == w.history.arrivals
    && (Last(v.history.outcomes).fate.Forwarded?
        || (w.sender.session.Some?
            && |FrameOf(w.shared.queue[0].payload)| > w.sender.session.value.maxPlaintext))
  }

  lemma HelpConnecting(u: Setup, w: World, v: World)
    requires Same(w, v) && w.shared.queue != [] && Shape(v) && OneLookup(v) && Connecting(v.sender.pc) && !MustWait(v)
    ensures var a := Answer(true, |FrameOf(v.shared.queue[0].payload)|, Sent);
            var v' := OnConnecting(u, v, a);
            Remaining(v') < Remaining(v) && Same(w, v')
  {
    hide FrameOf;
    hide NextJitter;
    hide JitteredMs;
  }

  lemma HelpTransport(u: Setup, w: World, v: World)
    requires Same(w, v) && w.shared.queue != [] && Shape(v) && Transporting(v.sender.pc) && !Moving(v.sender.pc)
    ensures var a := Answer(true, |FrameOf(v.shared.queue[0].payload)|, Sent);
            var v' := OnTransport(u, v, a);
            Remaining(v') < Remaining(v) && Same(w, v')
  {
    hide FrameOf;
  }

  lemma HelpLoop(u: Setup, w: World, v: World)
    requires Same(w, v) && w.shared.queue != [] && Shape(v) && FrontOk(v) && !Connecting(v.sender.pc) && !Transporting(v.sender.pc)
    requires !MustWait(v)
    ensures Remaining(OnLoop(u, v)) < Remaining(v) && Same(w, OnLoop(u, v))
  {
    hide FrameOf;
  }

  lemma HelpPolled(w: World, v: World)
    requires Same(w, v) && w.shared.queue != [] && Shape(v) && v.sender.pc.Polled? && !MustWait(v)
    ensures (Remaining(OnPolled(v)) < Remaining(v) && Same(w, OnPolled(v))) || Gone(w, OnPolled(v))
  {
    hide FrameOf;
    hide SourceTable.Dropped;
  }

  lemma HelpWrote(w: World, v: World)
    requires Same(w, v) && w.shared.queue != [] && v.sender.pc.Wrote?
    ensures Gone(w, OnWrote(v))
  {
    hide FrameOf;
    hide SourceTable.Forwarded;
  }

  lemma Helps(u: Setup, w: World, v: World)
    requires Same(w, v) && w.shared.queue != [] && Shape(v) && FrontOk(v) && OneLookup(v)
    ensures Enabled(v, Helpful(v))
    ensures var v' := Apply(u, v, Helpful(v));
            (Remaining(v') < Remaining(v) && Same(w, v')) || Gone(w, v')
  {
    hide FrameOf;
    var a := Answer(true, |FrameOf(v.shared.queue[0].payload)|, Sent);
    if !MustWait(v) {
      SenderMoves(u, v, a);
      hide Remaining;
      hide Same;
      hide Gone;
      hide OnConnecting;
      hide OnLoop;
      if Connecting(v.sender.pc) {
        HelpConnecting(u, w, v);
      } else if v.sender.pc.Polled? {
        hide OnSender;
        HelpPolled(w, v);
      } else if v.sender.pc.Wrote? {
        hide OnSender;
        HelpWrote(w, v);
      } else if Transporting(v.sender.pc) {
        hide OnTransport;
        HelpTransport(u, w, v);
      } else {
        HelpLoop(u, w, v);
      }
    }
  }

  // ---------- main result ----------

  /** From every reachable world with a message queued and no stop requested, some
      continuation lets the front message leave: sent, unless the session open at the
      beginning cannot carry it. */
  lemma AlwaysDeliverable(u: Setup, w: World) returns (steps: seq<Step>)
    requires Reachable(u, w) && w.history.stops == [] && w.shared.queue != []
    ensures Feasible(u, w, steps) && Gone(w, Execute(u, w, steps))
  {
    ReachableInv(u, w);
    DeadlineMeans(u.config, w.history.stops);
    InvParts(u, w);
    steps := Deliver(u, w, []);
  }

  lemma {:induction false} Deliver(u: Setup, w: World, steps: seq<Step>) returns (all: seq<Step>)
    requires Inv(u, w) && Feasible(u, w, steps) && w.shared.queue != [] && Same(w, Execute(u, w, steps))
    ensures Feasible(u, w, all) && Gone(w, Execute(u, w, all))
    decreases Remaining(Execute(u, w, steps))
  {
    var v := Execute(u, w, steps);
    RunInv(u, w, steps);
    InvParts(u, v);
    Helps(u, w, v);
    Extend(u, w, steps, Helpful(v));
    hide *;
    if Gone(w, Apply(u, v, Helpful(v))) {
      all := steps + [Helpful(v)];
    } else {
      all := Deliver(u, w, steps + [Helpful(v)]);
    }
  }
}
