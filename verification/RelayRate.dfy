/** The configured number of messages a second against what the sender really does: when
    it bounds every second of every run, and a run that exceeds it otherwise. */
module RelayRate {
  import opened Octets
  import opened Config
  import opened Framing
  import opened RelayModel
  import opened RelayMachine
  import opened RelayLedger
  import opened RelayTiming
  import opened RelayRuns

  /** At most `limit` of the instants lie within any half-open second. */
  predicate WithinRate(times: seq<nat>, limit: nat) {
    forall i, j | 0 <= i <= j < |times| && times[j] - times[i] < NANOS :: j - i + 1 <= limit
  }

  // ---------- extending a run ----------

  lemma {:induction false} Extend(u: Setup, w: World, steps: seq<Step>, step: Step)
    requires Feasible(u, w, steps) && Enabled(Execute(u, w, steps), step)
    ensures Feasible(u, w, steps + [step])
    ensures Execute(u, w, steps + [step]) == Apply(u, Execute(u, w, steps), step)
    decreases |steps|
  {
    hide Apply;
    hide Enabled;
    if steps == [] {
      assert [] + [step] == [step] && [step][1..] == [];
    } else {
      Extend(u, Apply(u, w, steps[0]), steps[1..], step);
      assert (steps + [step])[1..] == steps[1..] + [step];
    }
  }

  lemma Onward(u: Setup, w: World, step: Step)
    requires Reachable(u, w) && Enabled(w, step)
    ensures Reachable(u, Apply(u, w, step))
  {
    hide Apply;
    hide Enabled;
    hide Feasible;
    hide Execute;
    hide RelayMachine.Init;
    var start, steps :| RelayMachine.Init(u, start) && Feasible(u, start, steps) && Execute(u, start, steps) == w;
    Extend(u, start, steps, step);
  }

  // ---------- the busiest run ----------

  /** The sender may take the one queued message, and has sent `sent` of them, one every
      interval since `first`. */
  predicate Ready(u: Setup, w: World, m: Message, first: nat, sent: nat) {
    && Loaded(w, m, [m])
    && w.sender.pc.Poll?
    && w.sender.session.Some? && w.sender.session.value.maxPlaintext == |FrameOf(m.payload)|
    && w.sender.pending.None?
    && w.sender.nextSend <= w.now == first + sent * u.config.interval
    && SentTimes(w.history.calls) == Even(first, u.config.interval, sent)
  }

  predicate Loaded(w: World, m: Message, queue: seq<Message>) {
    && w.shared.queue == queue && w.shared.queueBytes == Bytes(queue)
    && w.shared.stopAt.None? && w.listener.Looping?
  }

  function Even(first: nat, interval: nat, n: nat): (times: seq<nat>)
    ensures |times| == n && forall k | 0 <= k < n :: times[k] == first + k * interval
  {
    seq(n, k requires 0 <= k => first + k * interval)
  }

  /** A message the listener admits when its queue is empty. */
  ghost predicate Passable(u: Setup, m: Message) {
    Admissible(u, m) && CanonicalIp(m.source) == m.source && |m.payload| <= u.config.maxBytes && u.config.maxMessages > 0
  }

  lemma Feed(u: Setup, w: World, m: Message) returns (w': World)
    requires Reachable(u, w) && Passable(u, m) && Loaded(w, m, [])
    ensures Reachable(u, w') && Loaded(w', m, [m])
    ensures w'.sender == w.sender && w'.now == w.now && w'.history.calls == w.history.calls && w'.resolver == w.resolver
  {
    hide Reachable;
    hide Allowed;
    hide SourceTable.Received;
    var heard := Apply(u, w, ListenerCheck);
    Onward(u, w, ListenerCheck);
    w' := Apply(u, heard, Datagram(m.source, m.payload));
    Onward(u, heard, Datagram(m.source, m.payload));
    assert [] + [m] == [m];
  }

  const Success := SenderStep(Answer(true, 0, Sent))

  lemma Transports(u: Setup, w: World)
    requires Transporting(w.sender.pc)
    ensures Enabled(w, Success) && Apply(u, w, Success) == OnTransport(u, w, Answer(true, 0, Sent))
  {
    hide OnTransport;
  }

  lemma PollSucceeds(u: Setup, w: World)
    requires w.sender.pc.Poll? && w.sender.session.Some?
    ensures var w' := Apply(u, w, Success);
            && w' == w.(sender := w.sender.(pc := Polled), history := w'.history)
            && SentTimes(w'.history.calls) == SentTimes(w.history.calls)
  {
    Transports(u, w);
    SentTimesAppend(w.history.calls, Polling(w.sender.session.value.id, true));
  }

  lemma FrameTaken(u: Setup, w: World, m: Message)
    requires w.sender.pc.Polled? && Loaded(w, m, [m]) && w.sender.nextSend <= w.now
    requires w.sender.session.Some? && w.sender.session.value.maxPlaintext == |FrameOf(m.payload)|
    ensures var w' := Apply(u, w, Success);
            && w' == w.(
                 shared := w.shared.(inFlight := true),
                 sender := w.sender.(pending := Some(FrameOf(m.payload)), writeStarted := w.now, pc := Write),
                 history := w'.history)
            && w'.history.calls == w.history.calls
  {
    hide FrameOf;
    Transports(u, w);
  }

  lemma WriteSucceeds(u: Setup, w: World)
    requires w.sender.pc.Write? && w.sender.session.Some? && w.sender.pending.Some?
    ensures var w' := Apply(u, w, Success);
            && w' == w.(sender := w.sender.(pc := Wrote), history := w'.history)
            && SentTimes(w'.history.calls) == SentTimes(w.history.calls) + [w.now]
  {
    Transports(u, w);
    SentTimesAppend(w.history.calls, Writing(w.sender.session.value.id, w.sender.pending.value, Sent, w.now));
  }

  lemma FrontForwarded(u: Setup, w: World, m: Message)
    requires w.sender.pc.Wrote? && Loaded(w, m, [m])
    ensures var w' := Apply(u, w, Success);
            && Loaded(w', m, []) && w'.sender == w.sender.(pc := Finished)
            && w'.now == w.now && w'.history.calls == w.history.calls
  {
    hide SourceTable.Forwarded;
    Transports(u, w);
    BytesPop(w.shared.queue);
    assert [m][1..] == [];
  }

  /** From the poll to the instant after a successful write. */
  lemma Ship(u: Setup, w: World, m: Message, first: nat, sent: nat) returns (w': World)
    requires Reachable(u, w) && Ready(u, w, m, first, sent)
    ensures Reachable(u, w') && Loaded(w', m, [])
    ensures w'.sender.pc.Finished? && w'.sender.session == w.sender.session && w'.now == w.now
    ensures SentTimes(w'.history.calls) == SentTimes(w.history.calls) + [w.now]
  {
    hide Reachable;
    hide FrameOf;
    hide Apply;
    hide Enabled;
    hide SentTimes;
    Transports(u, w);
    PollSucceeds(u, w);
    Onward(u, w, Success);
    var polled := Apply(u, w, Success);
    Transports(u, polled);
    FrameTaken(u, polled, m);
    Onward(u, polled, Success);
    var taken := Apply(u, polled, Success);
    Transports(u, taken);
    WriteSucceeds(u, taken);
    Onward(u, taken, Success);
    var wrote := Apply(u, taken, Success);
    Transports(u, wrote);
    FrontForwarded(u, wrote, m);
    Onward(u, wrote, Success);
    w' := Apply(u, wrote, Success);
  }

  // Between two writes: reset, a pause that lasts a whole interval, and the loop head.

  lemma ResetAfterWrite(u: Setup, w: World)
    requires w.sender.pc.Finished?
    ensures Apply(u, w, Success) == w.(sender := w.sender.(
              pending := None, delay := u.config.retryInitialMs, nextSend := w.now + u.config.interval, pc := Idle))
  {
    Transports(u, w);
  }

  lemma Loops(u: Setup, w: World)
    requires w.sender.pc.Idle? || w.sender.pc.Check?
    ensures Enabled(w, Success) && Apply(u, w, Success) == OnLoop(u, w)
  {
  }

  lemma PauseBegins(u: Setup, w: World, m: Message)
    requires w.sender.pc.Idle? && w.sender.pending.None? && Loaded(w, m, [m]) && w.sender.nextSend == w.now + u.config.interval
    ensures exists wake: nat :: wake <= w.now + u.config.interval && Apply(u, w, Success) == Goto(w, Pause(wake))
  {
    Loops(u, w);
    var wake := w.now + Least(u.config.interval, SHORT_PAUSE);
    assert Apply(u, w, Success) == Goto(w, Pause(wake));
  }

  lemma PauseEnds(u: Setup, w: World, wake: nat)
    requires w.sender.pc == Pause(wake) && wake <= w.now
    ensures Enabled(w, Success) && Apply(u, w, Success) == Goto(w, Check)
  {
  }

  lemma LoopHead(u: Setup, w: World, m: Message)
    requires w.sender.pc.Check? && Loaded(w, m, [m]) && w.sender.session.Some? && w.sender.pending.None?
    ensures Apply(u, w, Success) == Goto(w, Poll)
  {
    Loops(u, w);
  }

  /** The sender waits out one interval, no longer. */
  lemma Wait(u: Setup, w: World, m: Message) returns (w': World)
    requires Reachable(u, w) && Loaded(w, m, [m]) && w.sender.pc.Finished? && w.sender.session.Some?
    ensures Reachable(u, w') && Loaded(w', m, [m])
    ensures w'.sender.pc.Poll? && w'.sender.session == w.sender.session && w'.sender.pending.None?
    ensures w'.sender.nextSend == w'.now == w.now + u.config.interval && w'.history == w.history
  {
    hide Reachable;
    hide OnTransport;
    ResetAfterWrite(u, w);
    Transports(u, w);
    Onward(u, w, Success);
    var idle := Apply(u, w, Success);
    PauseBegins(u, idle, m);
    Loops(u, idle);
    Onward(u, idle, Success);
    var wake: nat :| wake <= idle.now + u.config.interval && Apply(u, idle, Success) == Goto(idle, Pause(wake));
    var pausing := Goto(idle, Pause(wake));
    Onward(u, pausing, Tick(u.config.interval));
    var rested := pausing.(now := pausing.now + u.config.interval);
    assert Apply(u, pausing, Tick(u.config.interval)) == rested;
    PauseEnds(u, rested, wake);
    Onward(u, rested, Success);
    var head := Goto(rested, Check);
    LoopHead(u, head, m);
    Loops(u, head);
    Onward(u, head, Success);
    w' := Goto(head, Poll);
  }

  lemma EvenAppend(first: nat, interval: nat, n: nat)
    ensures Even(first, interval, n) + [first + n * interval] == Even(first, interval, n + 1)
    ensures first + (n + 1) * interval == first + n * interval + interval
  {
    assert (n + 1) * interval == n * interval + interval;
  }

  lemma Cycle(u: Setup, w: World, m: Message, first: nat, sent: nat) returns (w': World)
    requires Reachable(u, w) && Ready(u, w, m, first, sent) && Passable(u, m)
    ensures Reachable(u, w') && Ready(u, w', m, first, sent + 1)
  {
    var shipped := Ship(u, w, m, first, sent);
    hide *;
    hide Passable;
    var fed := Feed(u, shipped, m);
    w' := Wait(u, fed, m);
    EvenAppend(first, u.config.interval, sent);
  }

  // ---------- from the start to the first poll ----------

  function Started(u: Setup): World {
    World(Fresh(0), Looping, Sender(Check, None, None, 0, u.config.retryInitialMs, 0, 0, 1, false),
          Resolver(0, NoReply), 0, History(0, 1, [], [], [], [], []))
  }

  lemma StartedReachable(u: Setup)
    requires Valid(u.config)
    ensures Reachable(u, Started(u))
  {
    assert RelayMachine.Init(u, Started(u)) && Feasible(u, Started(u), []) && Execute(u, Started(u), []) == Started(u);
  }

  lemma Asks(u: Setup, w: World, m: Message) returns (w': World)
    requires Reachable(u, w) && Loaded(w, m, [m]) && w.sender == Started(u).sender && w.resolver == Resolver(0, NoReply)
    ensures Reachable(u, w') && Loaded(w', m, [m]) && w'.now == w.now && w'.history == w.history
    ensures w'.sender == w.sender.(pc := w'.sender.pc, lookup := true)
    ensures w'.sender.pc.Resolving? && w'.resolver == Resolver(1, NoReply)
  {
    hide Reachable;
    hide OnTransport;
    Onward(u, w, Success);
    var mark := Goto(w, Mark);
    assert Apply(u, w, Success) == mark;
    Onward(u, mark, Success);
    var asking := Apply(u, mark, Success);
    Onward(u, asking, Success);
    w' := Apply(u, asking, Success);
  }

  lemma Connects(u: Setup, w: World, m: Message) returns (w': World)
    requires Reachable(u, w) && Loaded(w, m, [m]) && w.sender.pc.Resolving? && w.sender.lookup
    requires w.resolver == Resolver(1, NoReply) && w.sender.pending.None? && w.sender.nextSend == w.now
    requires w.history.calls == []
    ensures Reachable(u, w') && Ready(u, w', m, w.now, 0)
  {
    hide Reachable;
    hide OnTransport;
    hide FrameOf;
    var dial := SenderStep(Answer(true, |FrameOf(m.payload)|, Sent));
    Onward(u, w, LookupDone(Addresses(1)));
    var answered := Apply(u, w, LookupDone(Addresses(1)));
    Onward(u, answered, Success);
    var dialling := Apply(u, answered, Success);
    assert dialling.sender == w.sender.(pc := Dial(1), lookup := false);
    Onward(u, dialling, dial);
    w' := Apply(u, dialling, dial);
    var calls := [Dialled(w.sender.attempts % 1, 1, w.now)];
    SentTimesAppend([], calls[0]);
    SentTimesAppend(calls, Connected(w'.sender.session.value));
    assert [] + calls == calls;
  }

  /** The sender can keep up one write an interval for any number of writes. */
  lemma {:induction false} Busiest(u: Setup, m: Message, n: nat) returns (w: World)
    requires Valid(u.config) && Passable(u, m)
    ensures Reachable(u, w) && Ready(u, w, m, 0, n)
  {
    hide *;
    if n == 0 {
      StartedReachable(u);
      StartedUnfolds(u, m);
      var fed := Feed(u, Started(u), m);
      var asked := Asks(u, fed, m);
      w := Connects(u, asked, m);
    } else {
      var before := Busiest(u, m, n - 1);
      w := Cycle(u, before, m, 0, n - 1);
    }
  }

  lemma StartedUnfolds(u: Setup, m: Message)
    ensures var w := Started(u);
            && Loaded(w, m, []) && w.resolver == Resolver(0, NoReply) && w.now == 0 && w.history.calls == []
            && w.sender.pending.None? && w.sender.nextSend == 0
  {
  }

  // ---------- main result ----------

  lemma CapHolds(u: Setup, w: World)
    requires Reachable(u, w) && u.config.interval * u.config.messagesPerSecond >= NANOS
    ensures WithinRate(SentTimes(w.history.calls), u.config.messagesPerSecond)
  {
    var times, limit := SentTimes(w.history.calls), u.config.messagesPerSecond;
    forall i, j | 0 <= i <= j < |times| && times[j] - times[i] < NANOS ensures j - i + 1 <= limit {
      hide *;
      AlwaysPaced(u, w, i, j, 0);
      FewerThan(j - i, limit, u.config.interval, times[j] - times[i]);
    }
  }

  lemma FewerThan(n: nat, limit: nat, interval: nat, gap: int)
    requires n * interval <= gap < NANOS <= interval * limit
    ensures n < limit
  {
    if n >= limit {
      Scale(limit, n, interval);
    }
  }

  /** No second of any run sees more writes than configured if and only if the interval,
      rounded to a nanosecond, was not rounded down; a relay that can admit some message
      has otherwise a run with one write too many in a second. */
  lemma RateCapIsExact(u: Setup, m: Message)
    requires Valid(u.config) && Passable(u, m)
    ensures (forall w: World | Reachable(u, w) :: WithinRate(SentTimes(w.history.calls), u.config.messagesPerSecond))
       <==> u.config.interval * u.config.messagesPerSecond >= NANOS
  {
    var limit := u.config.messagesPerSecond;
    if u.config.interval * limit >= NANOS {
      forall w: World | Reachable(u, w) ensures WithinRate(SentTimes(w.history.calls), limit) {
        CapHolds(u, w);
      }
    } else {
      var w := Busiest(u, m, limit + 1);
      var times := SentTimes(w.history.calls);
      assert times == Even(0, u.config.interval, limit + 1);
      assert times[limit] - times[0] < NANOS && limit - 0 + 1 > limit;
      assert !WithinRate(times, limit);
    }
  }

  /** Three messages a second round to an interval at which four fit within a second. */
  lemma RateCapFailsForThree(u: Setup, m: Message)
    requires Valid(u.config) && Passable(u, m) && u.config.messagesPerSecond == 3
    ensures u.config.interval == 333_333_333
    ensures exists w: World :: Reachable(u, w) && !WithinRate(SentTimes(w.history.calls), 3)
  {
    RateCapIsExact(u, m);
  }
}
