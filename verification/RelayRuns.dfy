/** The main results about the relay: what holds in every world any run reaches, under
    every interleaving, and what no continuation of a run can undo. */
module RelayRuns {
  import opened Octets
  import opened Config
  import opened Framing
  import opened Rings
  import opened RelayModel
  import opened RelayMachine
  import opened RelayLedger
  import opened RelayProtocol
  import opened RelayTiming
  import opened RelayWaiting
  import opened RelaySources
  import opened RelayRecord
  import opened RelayJitter
  import opened RelayStatus
  import Grammar
  import SourceTable

  ghost predicate Inv(u: Setup, w: World) {
    && Valid(u.config)
    && Shape(w) && FrontOk(w) && QueueOk(u, w.shared)
    && Fifo(w) && Tallies(w) && SourcesOk(w)
    && Linked(w) && OneLookup(w)
    && Paced(u, w) && BackedOff(u, w) && Waited(u, w)
    && RecordOk(u, w) && StatusOk(u, w) && Jittered(u, w)
  }

  lemma OddIsNonzero(j: bv64)
    requires j & 1 == 1
    ensures j != 0
  {
  }

  lemma InitInv(u: Setup, w: World)
    requires RelayMachine.Init(u, w)
    ensures Inv(u, w)
  {
    OddIsNonzero(w.sender.jitter);
    DelayDoubles(u.config, 0);
    assert SourceTable.NewTable.entries.Keys == {} == Seen([]);
    assert Departed([]) == [] && Bytes([]) == 0;
  }

  lemma StepInv(u: Setup, w: World, step: Step)
    requires Inv(u, w) && Enabled(w, step)
    ensures Inv(u, Apply(u, w, step))
  {
    hide *;
    InvParts(u, w);
    ShapeStep(u, w, step);
    QueueStep(u, w, step);
    FifoStep(u, w, step);
    TalliesStep(u, w, step);
    SourcesStep(u, w, step);
    LinkedStep(u, w, step);
    OneLookupStep(u, w, step);
    PacedStep(u, w, step);
    BackedOffStep(u, w, step);
    WaitedStep(u, w, step);
    RecordStep(u, w, step);
    StatusStep(u, w, step);
    JitteredStep(u, w, step);
    InvParts(u, Apply(u, w, step));
  }

  lemma InvParts(u: Setup, w: World)
    ensures Inv(u, w)
       <==> && Valid(u.config)
            && Shape(w) && FrontOk(w) && QueueOk(u, w.shared)
            && Fifo(w) && Tallies(w) && SourcesOk(w)
            && Linked(w) && OneLookup(w)
            && Paced(u, w) && BackedOff(u, w) && Waited(u, w)
            && RecordOk(u, w) && StatusOk(u, w) && Jittered(u, w)
  {
  }

  lemma {:induction false} RunInv(u: Setup, w: World, steps: seq<Step>)
    requires Inv(u, w) && Feasible(u, w, steps)
    ensures Inv(u, Execute(u, w, steps))
    decreases |steps|
  {
    hide Inv;
    hide Apply;
    if steps != [] {
      StepInv(u, w, steps[0]);
      RunInv(u, Apply(u, w, steps[0]), steps[1..]);
    }
  }

  lemma ReachableInv(u: Setup, w: World)
    requires Reachable(u, w)
    ensures Inv(u, w)
  {
    var start, steps :| RelayMachine.Init(u, start) && Feasible(u, start, steps) && Execute(u, start, steps) == w;
    InitInv(u, start);
    RunInv(u, start, steps);
  }

  lemma ReachableParts(u: Setup, w: World)
    requires Reachable(u, w)
    ensures Valid(u.config)
    ensures Shape(w) && FrontOk(w) && QueueOk(u, w.shared)
    ensures Fifo(w) && Tallies(w) && SourcesOk(w)
    ensures Linked(w) && OneLookup(w)
    ensures Paced(u, w) && BackedOff(u, w) && Waited(u, w)
    ensures RecordOk(u, w) && StatusOk(u, w) && Jittered(u, w)
  {
    hide *;
    ReachableInv(u, w);
    InvParts(u, w);
  }

  // ---------- every reachable world ----------

  /** At every lock release: received is forwarded plus dropped plus queued, the depth is
      the queue's length, and the drop reasons add up. */
  lemma AlwaysConserved(u: Setup, w: World)
    requires Reachable(u, w)
    ensures var s := w.shared;
            && s.received == |w.history.arrivals| == s.forwarded + s.dropped + |s.queue|
            && s.queueDepth == |s.queue|
            && s.dropped == s.drops.invalid + s.drops.oversized + s.drops.queueFull
                            + s.drops.shutdown + s.drops.sourceDenied
  {
    ReachableParts(u, w);
    hide Reachable;
    hide SourcesOk;
    Conservation(w);
  }

  /** The queue stays within its limits, its byte count is exact, everything in it is an
      admissible message, and a frame is in flight only with the queue nonempty. */
  lemma AlwaysBounded(u: Setup, w: World)
    requires Reachable(u, w)
    ensures var s := w.shared;
            && s.queueBytes == Bytes(s.queue) <= u.config.maxBytes
            && |s.queue| <= u.config.maxMessages
            && (forall k | 0 <= k < |s.queue| ::
                  Admissible(u, s.queue[k]) && |FrameOf(s.queue[k].payload)| <= MAX_RECORD)
            && (s.inFlight ==> s.queue != [])
  {
    ReachableInv(u, w);
    hide Reachable;
    CeilingIsExact(MAX_MESSAGE_BYTES);
  }

  /** First in, first out, each admitted message once: the admitted messages are the
      departed ones followed by the queue; the frames sent are exactly those of the
      forwarded messages in order, but for the one just sent and not yet accounted; and
      when it is accounted, it is the front of the queue that leaves. */
  lemma AlwaysFifo(u: Setup, w: World)
    requires Reachable(u, w)
    ensures Admitted(w.history.arrivals) == Departed(w.history.outcomes) + w.shared.queue
    ensures !w.sender.pc.Wrote? ==> SentFrames(w.history.calls) == ForwardedFrames(w.history.outcomes)
    ensures w.sender.pc.Wrote? ==>
              && w.shared.queue != []
              && SentFrames(w.history.calls)
                 == ForwardedFrames(w.history.outcomes) + [FrameOf(w.shared.queue[0].payload)]
  {
    hide *;
    ReachableParts(u, w);
    FifoMeans(w);
  }

  lemma FifoMeans(w: World)
    requires Shape(w) && FrontOk(w) && Fifo(w)
    ensures Admitted(w.history.arrivals) == Departed(w.history.outcomes) + w.shared.queue
    ensures !w.sender.pc.Wrote? ==> SentFrames(w.history.calls) == ForwardedFrames(w.history.outcomes)
    ensures w.sender.pc.Wrote? ==>
              && w.shared.queue != []
              && SentFrames(w.history.calls)
                 == ForwardedFrames(w.history.outcomes) + [FrameOf(w.shared.queue[0].payload)]
  {
    hide FrameOf;
    var forwarded := ForwardedFrames(w.history.outcomes);
    assert forwarded + [] == forwarded;
  }

  /** A collector that concatenates what the transport sent decodes exactly the forwarded
      messages, in order. */
  lemma CollectorDecodes(u: Setup, w: World)
    requires Reachable(u, w) && !w.sender.pc.Wrote?
    ensures Deframe(Concat(SentFrames(w.history.calls))) == Some(ForwardedPayloads(w.history.outcomes))
  {
    hide *;
    AlwaysFifo(u, w);
    FramesAreStream(w.history.outcomes);
    StreamRoundTrip(ForwardedPayloads(w.history.outcomes));
  }

  function Concat(frames: seq<seq<byte>>): seq<byte> {
    if frames == [] then [] else Concat(frames[..|frames| - 1]) + frames[|frames| - 1]
  }

  function ForwardedPayloads(outcomes: seq<Outcome>): seq<seq<byte>> {
    if outcomes == [] then []
    else
      var o := outcomes[|outcomes| - 1];
      ForwardedPayloads(outcomes[..|outcomes| - 1]) + if o.fate.Forwarded? then [o.message.payload] else []
  }

  lemma {:induction false} StreamAppend(messages: seq<seq<byte>>, m: seq<byte>)
    ensures Stream(messages + [m]) == Stream(messages) + FrameOf(m)
  {
    hide FrameOf;
    if messages == [] {
      assert ([] + [m])[1..] == [];
      assert FrameOf(m) + [] == [] + FrameOf(m);
    } else {
      StreamAppend(messages[1..], m);
      assert (messages + [m])[1..] == messages[1..] + [m];
    }
  }

  lemma {:induction false} FramesAreStream(outcomes: seq<Outcome>)
    ensures Concat(ForwardedFrames(outcomes)) == Stream(ForwardedPayloads(outcomes))
  {
    hide FrameOf;
    if outcomes != [] {
      var front, o := outcomes[..|outcomes| - 1], outcomes[|outcomes| - 1];
      FramesAreStream(front);
      var frames := ForwardedFrames(front);
      if o.fate.Forwarded? {
        StreamAppend(ForwardedPayloads(front), o.message.payload);
        assert (frames + [FrameOf(o.message.payload)])[..|frames|] == frames;
      } else {
        assert frames + [] == frames && ForwardedPayloads(front) + [] == ForwardedPayloads(front);
      }
    }
  }

  /** Every counter is the tally of the history it summarises. */
  lemma AlwaysTallied(u: Setup, w: World)
    requires Reachable(u, w)
    ensures Tallies(w)
  {
    ReachableInv(u, w);
  }

  /** Per source: exactly the first 256 addresses are tracked, each conserves its own
      messages, and together with the untracked datagrams they make up all received. */
  lemma AlwaysPerSource(u: Setup, w: World)
    requires Reachable(u, w)
    ensures var t := w.shared.sources;
            && |t.entries| <= SourceTable.SOURCE_LIMIT
            && (forall ip :: ip in t.entries <==> Early(w.history.arrivals, ip))
            && (forall ip | ip in t.entries ::
                  var s := t.entries[ip];
                  && s.received == From(w.history.arrivals, ip)
                  && s.received == s.forwarded + s.dropped + MessagesFrom(w.shared.queue, ip))
            && TotalReceived(t, t.entries.Keys) + t.untracked == w.shared.received
  {
    ReachableInv(u, w);
    var t := w.shared.sources;
    assert |t.entries| == |t.entries.Keys|;
    AllSourcesConservation(w);
    forall ip | ip in t.entries
      ensures t.entries[ip].received == From(w.history.arrivals, ip)
           && t.entries[ip].received == t.entries[ip].forwarded + t.entries[ip].dropped + MessagesFrom(w.shared.queue, ip)
    {
      SourceConservation(w, ip);
      assert Account(t.entries[ip], w.history.arrivals, w.history.outcomes, ip);
    }
  }

  /** Seconds after the start at which messages of `ip` were forwarded, oldest first. */
  function Seconds(h: History, outcomes: seq<Outcome>, ip: IpAddr): seq<int> {
    if outcomes == [] then []
    else
      var o := outcomes[|outcomes| - 1];
      Seconds(h, outcomes[..|outcomes| - 1], ip)
      + if o.message.source == ip && o.fate.Forwarded? then [(o.when.at - h.start) / 1_000_000_000] else []
  }

  lemma {:induction false} TicksAreSeconds(c: Config, h: History, outcomes: seq<Outcome>, ip: IpAddr)
    requires forall j | 0 <= j < |outcomes| :: OutcomeOk(c, h, outcomes[j])
    ensures Ticks(outcomes, ip) == Seconds(h, outcomes, ip)
  {
    if outcomes != [] {
      TicksAreSeconds(c, h, outcomes[..|outcomes| - 1], ip);
      assert OutcomeOk(c, h, outcomes[|outcomes| - 1]);
    }
  }

  /** Whenever a snapshot is taken, the row of a tracked source is that of its history: its
      permission, its counts, and traffic windows that are exact in seconds since the
      start. */
  lemma AlwaysExactWindows(u: Setup, w: World, ip: IpAddr)
    requires Reachable(u, w) && ip in w.shared.sources.entries
    ensures var h, second := w.history, Second(w.shared, w.now);
            var log, row := Seconds(h, h.outcomes, ip), SourceTable.Snapshot(w.shared.sources, second)[ip];
            && second == (w.now - h.start) / 1_000_000_000
            && row.received == From(h.arrivals, ip)
            && row.dropped == RefusedFrom(h.arrivals, ip) + LostFrom(h.outcomes, ip)
            && row.forwarded == |log|
            && (forall k | 0 <= k < |log| :: 0 <= log[k])
            && row.perSecond == Count(log, second, 1, 1)
            && row.perMinute == Count(log, second, 1, 60)
            && Count(log, second, 0, 86340) <= row.last24h <= Count(log, second, 0, 86399)
            && row.perSecond <= row.perMinute <= row.last24h <= row.forwarded
  {
    hide *;
    ReachableParts(u, w);
    RecordedSeconds(u, w, ip);
    AccountHolds(w, ip);
    SnapshotIsExact(w, ip);
  }

  lemma RecordedSeconds(u: Setup, w: World, ip: IpAddr)
    requires RecordOk(u, w)
    ensures Ticks(w.history.outcomes, ip) == Seconds(w.history, w.history.outcomes, ip)
    ensures Second(w.shared, w.now) == (w.now - w.history.start) / 1_000_000_000
  {
    TicksAreSeconds(u.config, w.history, w.history.outcomes, ip);
    hide Ticks;
    hide Seconds;
    hide Deadline;
  }

  lemma AccountHolds(w: World, ip: IpAddr)
    requires SourcesOk(w) && ip in w.shared.sources.entries
    ensures var t, h := w.shared.sources, w.history;
            SourceTable.Snapshot(t, Second(w.shared, w.now))[ip].dropped == RefusedFrom(h.arrivals, ip) + LostFrom(h.outcomes, ip)
  {
    assert Account(w.shared.sources.entries[ip], w.history.arrivals, w.history.outcomes, ip);
    hide Second;
  }

  /** A source is shown as permitted exactly when its datagrams are. */
  lemma AlwaysMarksPermitted(u: Setup, w: World, i: nat)
    requires Reachable(u, w) && i < |w.history.arrivals|
    ensures var a, rows := w.history.arrivals[i], SourceTable.Snapshot(w.shared.sources, Second(w.shared, w.now));
            a.source in rows ==> (rows[a.source].allowed <==> Permitted(u.config, a.peer))
  {
    ReachableParts(u, w);
    assert ArrivalOk(u, w.history.arrivals, i);
    PermittedIsAllowed(u.config, w.history.arrivals[i].peer);
  }

  // ---------- every decision ----------

  /** A datagram is admitted if and only if its source is permitted, no stop was requested
      before, its size and grammar are right, and the messages then waiting leave room for
      it; and it is refused for the first of these that fails. */
  lemma AlwaysJudged(u: Setup, w: World, i: nat)
    requires Reachable(u, w) && i < |w.history.arrivals|
    ensures var a := w.history.arrivals[i];
            && a.when.arrivals == i && a.when.outcomes <= |Admitted(w.history.arrivals[..i])|
            && var waiting := Admitted(w.history.arrivals[..i])[a.when.outcomes..];
               && (a.verdict.None?
                   <==> && Permitted(u.config, a.peer)
                        && a.when.stops == 0
                        && |a.payload| <= u.config.maxMessageBytes
                        && Grammar.Accepts(u.texts, a.payload)
                        && |waiting| < u.config.maxMessages
                        && Bytes(waiting) + |a.payload| <= u.config.maxBytes)
               && Judged(u, a, waiting)
  {
    ReachableParts(u, w);
    hide Reachable;
    JudgedMeans(u, w.history.arrivals, i);
  }

  lemma JudgedMeans(u: Setup, arrivals: seq<Arrival>, i: nat)
    requires i < |arrivals| && ArrivalsOk(u, arrivals)
    ensures var a := arrivals[i];
            && a.when.arrivals == i && a.when.outcomes <= |Admitted(arrivals[..i])|
            && var waiting := Admitted(arrivals[..i])[a.when.outcomes..];
               && Judged(u, a, waiting)
               && (a.verdict.None?
                   <==> && Permitted(u.config, a.peer) && a.when.stops == 0
                        && |a.payload| <= u.config.maxMessageBytes && Grammar.Accepts(u.texts, a.payload)
                        && |waiting| < u.config.maxMessages && Bytes(waiting) + |a.payload| <= u.config.maxBytes)
  {
    assert ArrivalOk(u, arrivals, i);
    hide ArrivalsOk;
    hide Admitted;
    hide Permitted;
    hide Grammar.Accepts;
    var a := arrivals[i];
    var waiting := Waiting(arrivals, a);
    if !Faulty(u, a, waiting, SourceDenied) && !Faulty(u, a, waiting, ShutDown) && !Faulty(u, a, waiting, Oversized)
       && !Faulty(u, a, waiting, Invalid) && !Faulty(u, a, waiting, QueueFull) {
      forall why: Reason ensures !Faulty(u, a, waiting, why) {
        match why case SourceDenied => case ShutDown => case Oversized => case Invalid => case QueueFull =>
      }
    }
  }

  /** Why a message left the queue: forwarded right after its own frame was sent; too large
      only when its frame exceeds the budget of the session then open and just polled; and
      at shutdown only after a stop request, with the session closed and, unless the
      listener failed, no earlier than the drain time after the first call of `stop`. */
  lemma AlwaysFated(u: Setup, w: World, j: nat)
    requires Reachable(u, w) && j < |w.history.outcomes|
    ensures var h, o := w.history, w.history.outcomes[j];
            && o.when.calls <= |h.calls| && o.when.stops <= |h.stops|
            && var calls, stops := h.calls[..o.when.calls], h.stops[..o.when.stops];
               && (o.fate.Forwarded? ==>
                     && calls != [] && Last(calls).Writing? && Last(calls).outcome.Sent?
                     && Last(calls).frame == FrameOf(o.message.payload))
               && (o.fate.TooLarge? ==>
                     && OpenSession(calls).Some? && Last(calls) == Polling(OpenSession(calls).value.id, true)
                     && |FrameOf(o.message.payload)| > OpenSession(calls).value.maxPlaintext)
               && (o.fate.AtShutdown? ==>
                     && OpenSession(calls).None? && stops != []
                     && ((forall k | 0 <= k < |stops| :: !stops[k].failed) ==>
                           o.when.at >= stops[0].at + u.config.shutdownDrainMs * 1_000_000))
  {
    hide *;
    ReachableParts(u, w);
    FatedMeans(u, w, j);
  }

  lemma FatedMeans(u: Setup, w: World, j: nat)
    requires RecordOk(u, w) && j < |w.history.outcomes|
    ensures var h, o := w.history, w.history.outcomes[j];
            && o.when.calls <= |h.calls| && o.when.stops <= |h.stops|
            && var calls, stops := h.calls[..o.when.calls], h.stops[..o.when.stops];
               && (o.fate.Forwarded? ==>
                     && calls != [] && Last(calls).Writing? && Last(calls).outcome.Sent?
                     && Last(calls).frame == FrameOf(o.message.payload))
               && (o.fate.TooLarge? ==>
                     && OpenSession(calls).Some? && Last(calls) == Polling(OpenSession(calls).value.id, true)
                     && |FrameOf(o.message.payload)| > OpenSession(calls).value.maxPlaintext)
               && (o.fate.AtShutdown? ==>
                     && OpenSession(calls).None? && stops != []
                     && ((forall k | 0 <= k < |stops| :: !stops[k].failed) ==>
                           o.when.at >= stops[0].at + u.config.shutdownDrainMs * 1_000_000))
  {
    hide FrameOf;
    hide OpenSession;
    assert OutcomeOk(u.config, w.history, w.history.outcomes[j]);
  }

  /** What happens to the front of the queue after a successful poll: due and within the
      budget of the open session, its frame is taken and it stays; due and beyond, it
      leaves as too large; and otherwise nothing happens to it. */
  lemma AlwaysTakesFront(u: Setup, w: World, a: Answer)
    requires Reachable(u, w) && w.sender.pc.Polled?
    ensures OpenSession(w.history.calls).Some?
    ensures var w', q := Apply(u, w, SenderStep(a)), w.shared.queue;
            var due := q != [] && w.now >= w.sender.nextSend;
            var fits := q != [] && |FrameOf(q[0].payload)| <= OpenSession(w.history.calls).value.maxPlaintext;
            && w'.sender.pending == (if due && fits then Some(FrameOf(q[0].payload)) else None)
            && w'.shared.queue == (if due && !fits then q[1..] else q)
            && w'.history.outcomes
               == w.history.outcomes + if due && !fits then [Outcome(q[0], TooLarge, Now(w))] else []
  {
    ReachableParts(u, w);
    OpenIsSession(w);
    ApplySender(u, w, a);
    SenderMoves(u, w, a);
    hide *;
    FrontTaken(w);
  }

  lemma OpenIsSession(w: World)
    requires Linked(w) && Shape(w)
    ensures OpenSession(w.history.calls) == w.sender.session
    ensures w.sender.pc.Polled? ==> w.sender.session.Some? && w.sender.pending.None?
  {
  }

  lemma ApplySender(u: Setup, w: World, a: Answer)
    ensures Apply(u, w, SenderStep(a)) == OnSender(u, w, a)
  {
    hide OnSender;
  }

  lemma FrontTaken(w: World)
    requires w.sender.pc.Polled? && w.sender.session.Some? && w.sender.pending.None?
    ensures var w', q := OnPolled(w), w.shared.queue;
            var due := q != [] && w.now >= w.sender.nextSend;
            var fits := q != [] && |FrameOf(q[0].payload)| <= w.sender.session.value.maxPlaintext;
            && w'.sender.pending == (if due && fits then Some(FrameOf(q[0].payload)) else None)
            && w'.shared.queue == (if due && !fits then q[1..] else q)
            && w'.history.outcomes
               == w.history.outcomes + if due && !fits then [Outcome(q[0], TooLarge, Now(w))] else []
  {
    hide FrameOf;
    hide SourceTable.Dropped;
    assert w.history.outcomes + [] == w.history.outcomes;
  }

  /** The deadline that is published follows from the stop requests alone. */
  lemma AlwaysDeadline(u: Setup, w: World)
    requires Reachable(u, w)
    ensures var stops := w.history.stops;
            && (w.shared.stopAt.Some? <==> stops != [])
            && (stops != [] && (forall k | 0 <= k < |stops| :: !stops[k].failed) ==>
                  w.shared.stopAt == Some(stops[0].at + u.config.shutdownDrainMs * 1_000_000))
            && (forall k | 0 <= k < |stops| && LastFailure(stops, k) :: w.shared.stopAt == Some(stops[k].at))
  {
    hide *;
    ReachableParts(u, w);
    DeadlineIs(u.config, w.history.stops);
    StopsMean(u, w);
  }

  lemma DeadlineIs(c: Config, stops: seq<StopRequest>)
    ensures Deadline(c, stops).Some? <==> stops != []
    ensures stops != [] && (forall k | 0 <= k < |stops| :: !stops[k].failed) ==>
              Deadline(c, stops) == Some(stops[0].at + c.shutdownDrainMs * 1_000_000)
    ensures forall k | 0 <= k < |stops| && LastFailure(stops, k) :: Deadline(c, stops) == Some(stops[k].at)
  {
    DeadlineMeans(c, stops);
    hide Deadline;
  }

  /** The sender leaves its loop exactly when a stop was requested and nothing is queued or
      the time is up, or when the time is up after a failed connection; and the listener
      exactly when a stop was requested. */
  lemma AlwaysLeaves(u: Setup, w: World, a: Answer)
    requires Reachable(u, w)
    ensures var stops := w.history.stops;
            var up := Deadline(u.config, stops).Some? && w.now >= Deadline(u.config, stops).value;
            && (Apply(u, w, SenderStep(a)).sender.pc.Leaving?
                <==> || (w.sender.pc.Check? && stops != [] && (w.shared.queue == [] || up))
                     || (w.sender.pc.ConnectFailed? && up))
            && (w.sender.pc.Leaving? || w.sender.pc.Draining? ==> stops != [] && (w.shared.queue == [] || up))
            && (Apply(u, w, ListenerCheck).listener.Stopped? <==> stops != [])
  {
    ReachableParts(u, w);
    DeadlineMeans(u.config, w.history.stops);
    StopsMean(u, w);
    ApplySender(u, w, a);
    LeavesNow(u, w, a);
    hide *;
  }

  lemma StopsMean(u: Setup, w: World)
    requires RecordOk(u, w)
    ensures w.shared.stopAt == Deadline(u.config, w.history.stops)
    ensures Expired(w.shared, w.now)
       <==> Deadline(u.config, w.history.stops).Some? && w.now >= Deadline(u.config, w.history.stops).value
    ensures w.sender.pc.Leaving? || w.sender.pc.Draining? ==>
              w.shared.queue == [] || Expired(w.shared, w.now)
    ensures Apply(u, w, ListenerCheck).listener.Stopped? <==> w.shared.stopAt.Some?
  {
    hide Deadline;
  }

  lemma LeavesNow(u: Setup, w: World, a: Answer)
    requires Shape(w)
    ensures OnSender(u, w, a).sender.pc.Leaving?
       <==> || (w.sender.pc.Check? && w.shared.stopAt.Some? && (w.shared.queue == [] || Expired(w.shared, w.now)))
            || (w.sender.pc.ConnectFailed? && Expired(w.shared, w.now))
  {
    hide *;
    if Connecting(w.sender.pc) { LeavesConnecting(u, w, a); }
    else if Transporting(w.sender.pc) { LeavesTransport(u, w, a); }
    else { LeavesLoop(u, w, a); }
  }

  lemma LeavesConnecting(u: Setup, w: World, a: Answer)
    requires Connecting(w.sender.pc)
    ensures OnSender(u, w, a).sender.pc.Leaving? <==> w.sender.pc.ConnectFailed? && Expired(w.shared, w.now)
    ensures !w.sender.pc.Check?
  {
    hide NextJitter;
    hide JitteredMs;
  }

  lemma LeavesTransport(u: Setup, w: World, a: Answer)
    requires Transporting(w.sender.pc) && Shape(w)
    ensures !OnSender(u, w, a).sender.pc.Leaving? && !w.sender.pc.Check? && !w.sender.pc.ConnectFailed?
  {
    hide FinishFront;
  }

  lemma LeavesLoop(u: Setup, w: World, a: Answer)
    requires !Connecting(w.sender.pc) && !Transporting(w.sender.pc)
    ensures OnSender(u, w, a).sender.pc.Leaving?
       <==> w.sender.pc.Check? && w.shared.stopAt.Some? && (w.shared.queue == [] || Expired(w.shared, w.now))
    ensures !w.sender.pc.ConnectFailed?
  {
    hide Drain;
  }

  /** The in-flight mark stands exactly while a frame taken from the queue is being
      written, and a lost session clears it before its failure is counted. */
  lemma AlwaysInFlight(u: Setup, w: World)
    requires Reachable(u, w) && !w.sender.pc.Lost?
    ensures w.shared.inFlight <==> w.sender.pending.Some? && !w.sender.pc.Finished? && !w.sender.pc.Done?
  {
    ReachableParts(u, w);
  }

  /** Every retry counted is one failure pause, and the other way round. */
  lemma AlwaysCountsRetries(u: Setup, w: World)
    requires Reachable(u, w)
    ensures w.shared.retries == Rests(w.history.calls)
  {
    ReachableParts(u, w);
  }

  /** A session is given up only after a failed call, or when a write of the frame taken
      last blocks and more than the timeout has passed since it was taken. */
  lemma AlwaysGivesUp(u: Setup, w: World)
    requires Reachable(u, w) && w.sender.pc.Failed?
    ensures var calls, taken := w.history.calls, w.history.taken;
            && calls != []
            && (|| (Last(calls).Polling? && !Last(calls).ok)
                || (Last(calls).Writing? && Last(calls).outcome.Error?)
                || (Last(calls).Writing? && Last(calls).outcome.WouldBlock? && taken != []
                    && Last(taken).frame == Last(calls).frame
                    && w.now > Last(taken).when.at + u.config.handshakeTimeoutMs * 1_000_000))
  {
    ReachableParts(u, w);
    hide Reachable;
  }

  /** A blocked write ends its session exactly when more than the timeout has passed since
      its frame was taken; otherwise the sender rests and tries again. */
  lemma AlwaysTimesWrites(u: Setup, w: World, a: Answer)
    requires Reachable(u, w) && w.sender.pc.Blocked?
    ensures w.history.taken != []
    ensures var pc := Apply(u, w, SenderStep(a)).sender.pc;
            && (pc.Failed? <==> w.now > Last(w.history.taken).when.at + u.config.handshakeTimeoutMs * 1_000_000)
            && (pc.Failed? || pc.Idle?)
  {
    hide *;
    ReachableParts(u, w);
    ApplySender(u, w, a);
    BlockedMeans(u, w, a);
  }

  lemma BlockedMeans(u: Setup, w: World, a: Answer)
    requires Shape(w) && StatusOk(u, w) && w.sender.pc.Blocked?
    ensures w.history.taken != []
    ensures var pc := OnSender(u, w, a).sender.pc;
            && (pc.Failed? <==> w.now > Last(w.history.taken).when.at + u.config.handshakeTimeoutMs * 1_000_000)
            && (pc.Failed? || pc.Idle?)
  {
    hide MarksAllowed;
    hide Rests;
  }

  /** An idle sender rests ten milliseconds while a write is to be repeated or nothing is
      queued, and otherwise no longer than until the next write is due. */
  lemma AlwaysIdles(u: Setup, w: World, a: Answer)
    requires w.sender.pc.Idle?
    ensures var pc := Apply(u, w, SenderStep(a)).sender.pc;
            && pc.Pause? && w.now <= pc.wake <= w.now + 10_000_000
            && (w.sender.pending.Some? || w.shared.queue == [] ==> pc.wake == w.now + 10_000_000)
            && (w.sender.pending.None? && w.shared.queue != [] ==>
                  && (pc.wake == w.now + 10_000_000 || pc.wake == w.now || pc.wake == w.sender.nextSend)
                  && (w.sender.nextSend > w.now ==> w.now < pc.wake <= w.sender.nextSend)
                  && (w.sender.nextSend <= w.now ==> pc.wake == w.now))
  {
    ApplySender(u, w, a);
    assert OnSender(u, w, a) == OnIdle(w);
    hide *;
    IdleMeans(w);
  }

  lemma IdleMeans(w: World)
    ensures var pc := OnIdle(w).sender.pc;
            && pc.Pause? && w.now <= pc.wake <= w.now + 10_000_000
            && (w.sender.pending.Some? || w.shared.queue == [] ==> pc.wake == w.now + 10_000_000)
            && (w.sender.pending.None? && w.shared.queue != [] ==>
                  && (pc.wake == w.now + 10_000_000 || pc.wake == w.now || pc.wake == w.sender.nextSend)
                  && (w.sender.nextSend > w.now ==> w.now < pc.wake <= w.sender.nextSend)
                  && (w.sender.nextSend <= w.now ==> pc.wake == w.now))
  {
  }

  /** Waiting for the lookup: addresses are dialled as soon as they are there; the attempt
      fails when the relay gives up, when the lookup brings none, and when the handshake
      timeout passes without a reply; and the lookup is then only started again if it
      ended. */
  lemma AlwaysLooksUp(u: Setup, w: World, a: Answer)
    requires Reachable(u, w) && w.sender.pc.Resolving?
    ensures var up, w' := Deadline(u.config, w.history.stops), Apply(u, w, SenderStep(a));
            var late := up.Some? && w.now >= up.value;
            && (forall n: nat :: w'.sender.pc == Dial(n) <==> !late && w.resolver.reply == Addresses(n) && n > 0)
            && (w'.sender.pc.ConnectFailed?
                <==> late || w.resolver.reply in {Failure, Died, Addresses(0)}
                     || (w.resolver.reply.NoReply? && w.now >= w.sender.pc.until))
            && (w'.sender.lookup <==> late || w.resolver.reply.NoReply?)
  {
    hide *;
    ReachableParts(u, w);
    ApplySender(u, w, a);
    LookupOutstanding(w);
    StopsMean(u, w);
    ResolvingMeans(u, w, a);
  }

  lemma LookupOutstanding(w: World)
    requires OneLookup(w) && w.sender.pc.Resolving?
    ensures w.sender.lookup
  {
  }

  lemma ResolvingMeans(u: Setup, w: World, a: Answer)
    requires w.sender.pc.Resolving? && w.sender.lookup
    ensures var w', late := OnSender(u, w, a), Expired(w.shared, w.now);
            && (forall n: nat :: w'.sender.pc == Dial(n) <==> !late && w.resolver.reply == Addresses(n) && n > 0)
            && (w'.sender.pc.ConnectFailed?
                <==> late || w.resolver.reply in {Failure, Died, Addresses(0)}
                     || (w.resolver.reply.NoReply? && w.now >= w.sender.pc.until))
            && (w'.sender.lookup <==> late || w.resolver.reply.NoReply?)
  {
    assert OnSender(u, w, a) == OnResolving(w, w.sender.pc.until, a);
    hide OnSender;
  }

  /** A lookup is started, unless one is already under way, and waited for from now on. */
  lemma AlwaysAsks(u: Setup, w: World, a: Answer)
    requires w.sender.pc.Resolve?
    ensures var w' := Apply(u, w, SenderStep(a));
            && (w.sender.lookup ==> w'.resolver == w.resolver)
            && (!w.sender.lookup && a.ok ==> w'.resolver == Resolver(w.resolver.running + 1, NoReply) && w'.sender.lookup)
            && (w'.sender.pc == if w.sender.lookup || a.ok then Resolving(w.now + u.config.handshakeTimeoutMs * 1_000_000)
                                else ConnectFailed)
  {
  }

  /** No short pause lasts more than ten milliseconds, and no lookup is waited for beyond
      the handshake timeout. */
  lemma AlwaysBrief(u: Setup, w: World)
    requires Reachable(u, w)
    ensures w.sender.pc.Pause? ==> w.sender.pc.wake <= w.now + 10_000_000
    ensures w.sender.pc.Resolving? ==> w.sender.pc.until <= w.now + u.config.handshakeTimeoutMs * 1_000_000
  {
    ReachableParts(u, w);
  }

  /** The transport is used as its sessions demand, dials wait for the failure pause
      before them, writes are repeated within their timeout, and at most one lookup
      thread is outstanding. */
  lemma AlwaysDisciplined(u: Setup, w: World)
    requires Reachable(u, w)
    ensures Disciplined(w.history.calls) && AllPatient(u, w.history.calls) && w.resolver.running <= 1
  {
    ReachableInv(u, w);
  }

  /** Any two successful writes are apart by their distance in intervals, so a window of
      any length holds at most one more than the intervals that fit in it. */
  lemma AlwaysPaced(u: Setup, w: World, i: nat, j: nat, span: nat)
    requires Reachable(u, w) && i <= j < |SentTimes(w.history.calls)|
    ensures var times := SentTimes(w.history.calls);
            && u.config.interval > 0
            && times[j] - times[i] >= (j - i) * u.config.interval
            && (times[j] - times[i] <= span ==> j - i + 1 <= span / u.config.interval + 1)
  {
    ReachableInv(u, w);
    IntervalPositive(u.config);
    var times := SentTimes(w.history.calls);
    Apart(times, u.config.interval, i, j);
    if times[j] - times[i] <= span {
      WindowHolds(times, u.config.interval, i, j, span);
    }
  }

  /** The delay is the doubled-and-capped one of the failures since the last success, and
      every failure pause was as long as its failure count demands. */
  lemma AlwaysBackedOff(u: Setup, w: World)
    requires Reachable(u, w)
    ensures var k := Streak(w.history.calls);
            && (!w.sender.pc.Backoff? && !w.sender.pc.Wrote? && !w.sender.pc.Finished? ==>
                  w.sender.delay == DelayAfter(u.config, k))
            && (w.sender.pc.Backoff? ==> k > 0 && w.sender.delay == DelayAfter(u.config, k - 1))
    ensures RestsOk(u.config, w.history.calls) && w.sender.jitter != 0
  {
    ReachableInv(u, w);
  }

  /** Every pause after a failed connection in closed form: three quarters of the delay of
      the failures since the last success, plus the draw of the xorshift sequence for this
      failed connection modulo half the delay plus one, capped. */
  lemma AlwaysJittered(u: Setup, w: World, i: nat)
    requires Reachable(u, w) && i < |w.history.calls|
    ensures PauseOk(u.config, w.history.seed, w.history.calls, i)
  {
    hide *;
    ReachableParts(u, w);
    JitteredMeans(u, w, i);
  }

  lemma JitteredMeans(u: Setup, w: World, i: nat)
    requires Jittered(u, w) && i < |w.history.calls|
    ensures PauseOk(u.config, w.history.seed, w.history.calls, i)
  {
    hide PauseOk;
  }

  // ---------- what no continuation undoes ----------

  predicate Suffix(a: seq<Message>, b: seq<Message>) {
    |a| <= |b| && a == b[|b| - |a|..]
  }

  /** Later worlds of a run against earlier ones. */
  predicate Later(w: World, w': World) {
    && w.now <= w'.now
    && w.history.arrivals <= w'.history.arrivals
    && w.history.outcomes <= w'.history.outcomes
    && w.history.calls <= w'.history.calls
    && w.history.stops <= w'.history.stops
    && w.history.taken <= w'.history.taken
    && w.shared.sources.entries.Keys <= w'.shared.sources.entries.Keys
    && (w.shared.stopAt.Some? ==> w'.shared.stopAt.Some? && Suffix(w'.shared.queue, w.shared.queue))
    && (Expired(w.shared, w.now) ==> Expired(w'.shared, w'.now))
    && (w.sender.pc.Done? ==>
          && w'.sender == w.sender && w'.history.calls == w.history.calls
          && w'.history.outcomes == w.history.outcomes && w'.shared.forwarded == w.shared.forwarded)
  }

  lemma LaterTransitive(a: World, b: World, c: World)
    requires Later(a, b) && Later(b, c)
    ensures Later(a, c)
  {
    if a.shared.stopAt.Some? {
      var p, q, r := a.shared.queue, b.shared.queue, c.shared.queue;
      assert p[|p| - |q|..][|q| - |r|..] == p[|p| - |r|..];
    }
  }

  lemma LaterDatagram(u: Setup, w: World, peer: IpAddr, payload: seq<byte>)
    requires !w.listener.Stopped?
    ensures Later(w, OnDatagram(u, w, peer, payload))
  {
    hide Grammar.Accepts;
    DatagramBooks(u, w, peer, payload);
    ReceiveKeepsStop(u, w.shared, CanonicalIp(peer), payload);
    assert w.shared.stopAt.Some? ==> Verdict(u, w.shared, CanonicalIp(peer), payload).Some?;
  }

  lemma {:induction false} DroppedAllKeys(t: SourceTable.Table, queue: seq<Message>)
    ensures DroppedAll(t, queue).entries.Keys == t.entries.Keys
    decreases |queue|
  {
    if queue != [] { DroppedAllKeys(SourceTable.Dropped(t, queue[0].source), queue[1..]); }
  }

  lemma FinishKeys(s: Shared, forwarded: bool, now: nat)
    ensures var s' := FinishFront(s, forwarded, now);
            && s'.sources.entries.Keys == s.sources.entries.Keys
            && s'.queue == (if s.queue == [] then [] else s.queue[1..])
            && s'.stopAt == s.stopAt
  {
    hide SourceTable.Stamped;
    hide Second;
  }

  lemma LaterSender(u: Setup, w: World, a: Answer)
    requires Shape(w) && !w.sender.pc.Done?
    ensures Later(w, OnSender(u, w, a))
  {
    SenderMoves(u, w, a);
    CallsAdded(u, w, a);
    hide OnSender;
    hide CallsOf;
    match w.sender.pc
    case Polled => FinishKeys(w.shared, false, w.now); hide FinishFront;
    case Wrote => FinishKeys(w.shared, true, w.now); hide FinishFront;
    case Draining => DroppedAllKeys(w.shared.sources, w.shared.queue); hide DroppedAll;
    case _ => SenderQuiet(u, w, a);
  }

  lemma LaterStep(u: Setup, w: World, step: Step)
    requires Shape(w) && Enabled(w, step)
    ensures Later(w, Apply(u, w, step))
  {
    hide OnSender;
    hide OnDatagram;
    match step
    case Datagram(peer, payload) => LaterDatagram(u, w, peer, payload);
    case SenderStep(a) => LaterSender(u, w, a);
    case _ =>
  }

  lemma LaterReflexive(w: World)
    ensures Later(w, w)
  {
  }

  lemma LaterFirst(u: Setup, w: World, step: Step)
    requires Inv(u, w) && Enabled(w, step)
    ensures Later(w, Apply(u, w, step)) && Inv(u, Apply(u, w, step))
  {
    InvShape(u, w);
    hide *;
    LaterStep(u, w, step);
    StepInv(u, w, step);
  }

  lemma InvShape(u: Setup, w: World)
    requires Inv(u, w)
    ensures Shape(w)
  {
  }

  lemma {:induction false} RunLater(u: Setup, w: World, steps: seq<Step>)
    requires Inv(u, w) && Feasible(u, w, steps)
    ensures Later(w, Execute(u, w, steps))
    decreases |steps|
  {
    hide Apply;
    hide Enabled;
    hide Later;
    LaterReflexive(w);
    if steps != [] {
      LaterFirst(u, w, steps[0]);
      hide Inv;
      RunLater(u, Apply(u, w, steps[0]), steps[1..]);
      LaterTransitive(w, Apply(u, w, steps[0]), Execute(u, w, steps));
    }
  }

  /** However a run goes on, history only grows, tracked sources stay tracked, a stop
      request and an expired deadline stand (even when a listener failure moves the
      deadline), the queue of a stopping relay only loses messages from its front, and a
      finished sender does nothing more. */
  lemma AlwaysLater(u: Setup, w: World, steps: seq<Step>)
    requires Reachable(u, w) && Feasible(u, w, steps)
    ensures Later(w, Execute(u, w, steps))
  {
    hide Feasible;
    hide Execute;
    ReachableInv(u, w);
    RunLater(u, w, steps);
  }

  /** Shutdown is final: the sender drains only once stopping was requested, and from then
      on the queue is empty and every datagram still received is accounted as dropped. */
  lemma ShutdownIsFinal(u: Setup, w: World, steps: seq<Step>)
    requires Reachable(u, w) && w.sender.pc.Done? && Feasible(u, w, steps)
    ensures var w' := Execute(u, w, steps);
            && w.shared.stopAt.Some? && w'.shared.stopAt.Some?
            && w'.shared.queue == []
            && w'.shared.received == w'.shared.forwarded + w'.shared.dropped
            && w'.shared.forwarded == w.shared.forwarded
            && w'.history.calls == w.history.calls && OpenSession(w'.history.calls).None?
  {
    ReachableInv(u, w);
    RunLater(u, w, steps);
    RunInv(u, w, steps);
    var w' := Execute(u, w, steps);
    Conservation(w');
  }

  /** A message once admitted is in the queue or has one fate, and that fate stands. */
  lemma FateStands(u: Setup, w: World, steps: seq<Step>, i: nat)
    requires Reachable(u, w) && Feasible(u, w, steps) && i < |Admitted(w.history.arrivals)|
    ensures var m, w' := Admitted(w.history.arrivals)[i], Execute(u, w, steps);
            var n := |w'.history.outcomes|;
            && i < n + |w'.shared.queue|
            && m == (if i < n then w'.history.outcomes[i].message else w'.shared.queue[i - n])
            && (i < |w.history.outcomes| ==> i < n && w'.history.outcomes[i] == w.history.outcomes[i])
  {
    var w' := Execute(u, w, steps);
    RunOutcome(u, w, steps);
    hide Execute;
    AdmittedPrefix(w.history.arrivals, w'.history.arrivals);
    assert Admitted(w'.history.arrivals)[i] == Admitted(w.history.arrivals)[i];
  }

  lemma RunOutcome(u: Setup, w: World, steps: seq<Step>)
    requires Reachable(u, w) && Feasible(u, w, steps)
    ensures var w' := Execute(u, w, steps);
            && Admitted(w'.history.arrivals) == Departed(w'.history.outcomes) + w'.shared.queue
            && w.history.arrivals <= w'.history.arrivals
            && w.history.outcomes <= w'.history.outcomes
  {
    hide *;
    ReachableInv(u, w);
    RunInv(u, w, steps);
    RunLater(u, w, steps);
    InvParts(u, Execute(u, w, steps));
    FifoMeans(Execute(u, w, steps));
    LaterMeans(w, Execute(u, w, steps));
  }

  lemma LaterMeans(w: World, w': World)
    requires Later(w, w')
    ensures w.history.arrivals <= w'.history.arrivals && w.history.outcomes <= w'.history.outcomes
  {
  }

  lemma {:induction false} AdmittedPrefix(a: seq<Arrival>, b: seq<Arrival>)
    requires a <= b
    ensures Admitted(a) <= Admitted(b)
    decreases |b|
  {
    if |a| < |b| {
      AdmittedPrefix(a, b[..|b| - 1]);
    } else {
      assert a == b;
    }
  }
}
