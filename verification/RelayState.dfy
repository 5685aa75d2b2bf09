/** The shared relay state as the mutable object it is in crates/core/src/relay.rs.
    Every method is one lock section and does to the object exactly what `RelayModel`
    says on values. */
module RelayState {
  import opened Octets
  import opened Config
  import opened RelayModel
  import opened Framing
  import Recogniser
  import SourceTable
  import opened Sources

  class State {
    var received: nat
    var forwarded: nat
    var dropped: nat
    var drops: Drops
    var queueDepth: nat
    var queueBytes: int
    var inFlight: bool
    var retries: nat
    var queue: seq<Message>
    const sources: Sources
    const started: nat
    var stopAt: Option<nat>

    ghost predicate Valid()
      reads this, sources, sources.Repr
    {
      sources.Valid() && this !in sources.Repr
    }

    ghost function View(): Shared
      requires Valid()
      reads this, sources, sources.Repr
    {
      Shared(received, forwarded, dropped, drops, queueDepth, queueBytes, inFlight, retries,
             queue, sources.View(), started, stopAt)
    }

    constructor (now: nat)
      ensures Valid() && fresh(sources.Repr) && View() == Fresh(now)
    {
      received, forwarded, dropped, drops := 0, 0, 0, Drops(0, 0, 0, 0, 0);
      queueDepth, queueBytes, inFlight, retries, queue := 0, 0, false, 0, [];
      sources := new Sources();
      started, stopAt := now, None;
    }

    method Refuse(ip: IpAddr, why: Reason)
      requires Valid()
      modifies this, sources.Repr
      ensures Valid() && fresh(sources.Repr - old(sources.Repr))
      ensures View() == Discard(old(View()), ip, why)
    {
      drops := Charge(drops, why);
      dropped := dropped + 1;
      sources.Dropped(ip);
    }

    method Count(ip: IpAddr, allowed: bool)
      requires Valid()
      modifies this, sources.Repr
      ensures Valid() && fresh(sources.Repr - old(sources.Repr))
      ensures View() == Counted(old(View()), ip, allowed)
    {
      hide SourceTable.Received;
      sources.Received(ip, allowed);
      received := received + 1;
    }

    method Admit(m: Message)
      requires Valid()
      modifies this
      ensures Valid() && View() == Enqueue(old(View()), m)
    {
      queue := queue + [m];
      queueBytes := queueBytes + |m.payload|;
      queueDepth := |queue|;
    }

    /** The listener's checks, in their order. */
    method Check(u: Setup, allowed: bool, ip: IpAddr, payload: seq<byte>) returns (verdict: Option<Reason>)
      requires Valid() && allowed == Allowed(u.config, ip)
      ensures verdict == Verdict(u, View(), ip, payload)
    {
      if !allowed { return Some(SourceDenied); }
      if stopAt.Some? { return Some(ShutDown); }
      if |payload| > u.config.maxMessageBytes { return Some(Oversized); }
      var valid := Recogniser.ValidMessage(u.texts, payload);
      if !valid { return Some(Invalid); }
      if |queue| >= u.config.maxMessages || queueBytes + |payload| > u.config.maxBytes { return Some(QueueFull); }
      return None;
    }

    /** The listener's section for one datagram. */
    method OnDatagram(u: Setup, allowed: bool, ip: IpAddr, payload: seq<byte>)
      requires Valid() && allowed == Allowed(u.config, ip)
      modifies this, sources.Repr
      ensures Valid() && fresh(sources.Repr - old(sources.Repr))
      ensures View() == Receive(u, old(View()), ip, payload)
    {
      ghost var before := View();
      Count(ip, allowed);
      var verdict := Check(u, allowed, ip, payload);
      assert verdict == Verdict(u, before, ip, payload);
      match verdict
      case Some(why) => Refuse(ip, why);
      case None => Admit(Message(payload, ip));
    }

    method Pop(sent: bool, now: nat)
      requires Valid() && queue != []
      modifies this, sources.Repr
      ensures Valid() && fresh(sources.Repr - old(sources.Repr))
      ensures View() == Popped(old(View()), sent, now)
    {
      var m := queue[0];
      queue := queue[1..];
      queueBytes := queueBytes - |m.payload|;
      if sent {
        sources.Forwarded(m.source, if now < started then 0 else (now - started) / NANOS);
      } else {
        sources.Dropped(m.source);
      }
    }

    method Settle(sent: bool)
      requires Valid()
      modifies this
      ensures Valid()
      ensures var quiet := old(View()).(queueDepth := |old(queue)|, inFlight := false);
              View() == if sent then quiet.(forwarded := quiet.forwarded + 1)
                        else quiet.(dropped := quiet.dropped + 1, drops := Charge(quiet.drops, Oversized))
    {
      queueDepth := |queue|;
      inFlight := false;
      if sent {
        forwarded := forwarded + 1;
      } else {
        dropped := dropped + 1;
        drops := drops.(oversized := drops.oversized + 1);
      }
    }

    method Finish(sent: bool, now: nat)
      requires Valid()
      modifies this, sources.Repr
      ensures Valid() && fresh(sources.Repr - old(sources.Repr))
      ensures View() == FinishFront(old(View()), sent, now)
    {
      if queue != [] {
        Pop(sent, now);
      }
      Settle(sent);
    }

    method DropQueued()
      requires Valid()
      modifies this`queue, sources.Repr
      ensures Valid() && fresh(sources.Repr - old(sources.Repr))
      ensures queue == [] && sources.View() == DroppedAll(old(sources.View()), old(queue))
    {
      while queue != []
        invariant Valid() && fresh(sources.Repr - old(sources.Repr))
        invariant DroppedAll(sources.View(), queue) == DroppedAll(old(sources.View()), old(queue))
        decreases |queue|
      {
        sources.Dropped(queue[0].source);
        queue := queue[1..];
      }
    }

    method DrainQueue()
      requires Valid()
      modifies this, sources.Repr
      ensures Valid() && fresh(sources.Repr - old(sources.Repr))
      ensures View() == Drain(old(View()))
    {
      hide DroppedAll;
      hide SourceTable.Dropped;
      hide Charge;
      var n := |queue|;
      ghost var table := DroppedAll(sources.View(), queue);
      DropQueued();
      assert sources.View() == table;
      dropped := dropped + n;
      drops := drops.(shutdown := drops.shutdown + n);
      queueDepth, queueBytes, inFlight := 0, 0, false;
      assert sources.View() == table;
    }

    method RequestStop(u: Setup, now: nat)
      requires Valid()
      modifies this`stopAt
      ensures Valid() && View() == Stop(u, old(View()), now)
    {
      if stopAt.None? {
        stopAt := Some(now + u.config.shutdownDrainMs * MILLI);
      }
    }

    /** The listener's section when its socket fails. */
    method FailListener(now: nat)
      requires Valid()
      modifies this`stopAt
      ensures Valid() && View() == ListenerFailed(old(View()), now)
    {
      stopAt := Some(now);
    }

    /** The sender's section that takes a frame: the front of the queue stays where it is
        unless its frame exceeds what the session can carry. */
    method TakeFront(maxPlaintext: nat, now: nat) returns (frame: Option<seq<byte>>)
      requires Valid()
      modifies this, sources.Repr
      ensures Valid() && fresh(sources.Repr - old(sources.Repr))
      ensures frame.Some? <==> old(queue) != [] && |FrameOf(old(queue)[0].payload)| <= maxPlaintext
      ensures frame.Some? ==> frame.value == FrameOf(old(queue)[0].payload) && View() == old(View()).(inFlight := true)
      ensures frame.None? ==> View() == if old(queue) == [] then old(View()) else FinishFront(old(View()), false, now)
    {
      if queue == [] { return None; }
      var bytes := Frame(queue[0].payload);
      if |bytes| > maxPlaintext {
        Finish(false, now);
        return None;
      }
      inFlight := true;
      return Some(bytes);
    }

    /** The sender's section after a connection or a write failed. */
    method CountRetry(connected: bool)
      requires Valid()
      modifies this`retries, this`inFlight
      ensures Valid()
      ensures View() == NoteRetry(if connected then old(View()).(inFlight := false) else old(View()))
    {
      if connected { inFlight := false; }
      retries := retries + 1;
    }

    /** The rows of a status snapshot. */
    method Status(now: nat) returns (rows: map<IpAddr, SourceTable.Row>, untracked: nat)
      requires Valid()
      ensures rows == SourceTable.Snapshot(View().sources, Second(View(), now))
      ensures untracked == View().sources.untracked
    {
      rows := sources.Snapshot(if now < started then 0 else (now - started) / NANOS);
      untracked := sources.untracked;
    }
  }
}
