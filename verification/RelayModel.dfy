/** The state both relay threads share under one lock (crates/core/src/relay.rs,
    `State`), and what each lock section does to it, on values. */
module RelayModel {
  import opened Octets
  import opened Config
  import Grammar
  import SourceTable

  datatype Message = Message(payload: seq<byte>, source: IpAddr)

  datatype Reason = SourceDenied | ShutDown | Oversized | Invalid | QueueFull

  datatype Drops = Drops(invalid: nat, oversized: nat, queueFull: nat, shutdown: nat, sourceDenied: nat)

  /** Instants are nanoseconds of the monotonic clock. */
  datatype Shared = Shared(
    received: nat, forwarded: nat, dropped: nat, drops: Drops,
    queueDepth: nat, queueBytes: int, inFlight: bool, retries: nat,
    queue: seq<Message>, sources: SourceTable.Table,
    started: nat, stopAt: Option<nat>)

  /** Settings and the text predicates of the recogniser. */
  datatype Setup = Setup(config: Config, texts: Grammar.Texts)

  function Fresh(now: nat): Shared {
    Shared(0, 0, 0, Drops(0, 0, 0, 0, 0), 0, 0, false, 0, [], SourceTable.NewTable, now, None)
  }

  function Charge(d: Drops, why: Reason): Drops {
    match why
    case SourceDenied => d.(sourceDenied := d.sourceDenied + 1)
    case ShutDown => d.(shutdown := d.shutdown + 1)
    case Oversized => d.(oversized := d.oversized + 1)
    case Invalid => d.(invalid := d.invalid + 1)
    case QueueFull => d.(queueFull := d.queueFull + 1)
  }

  /** The listener's checks, in their order; `None` admits the datagram. */
  ghost function Verdict(u: Setup, s: Shared, ip: IpAddr, payload: seq<byte>): Option<Reason> {
    if !Allowed(u.config, ip) then Some(SourceDenied)
    else if s.stopAt.Some? then Some(ShutDown)
    else if |payload| > u.config.maxMessageBytes then Some(Oversized)
    else if !Grammar.Accepts(u.texts, payload) then Some(Invalid)
    else if |s.queue| >= u.config.maxMessages || s.queueBytes + |payload| > u.config.maxBytes then Some(QueueFull)
    else None
  }

  function Discard(s: Shared, ip: IpAddr, why: Reason): Shared {
    s.(drops := Charge(s.drops, why), dropped := s.dropped + 1, sources := SourceTable.Dropped(s.sources, ip))
  }

  function Enqueue(s: Shared, m: Message): Shared {
    s.(queue := s.queue + [m], queueBytes := s.queueBytes + |m.payload|, queueDepth := |s.queue| + 1)
  }

  function Counted(s: Shared, ip: IpAddr, allowed: bool): Shared {
    s.(received := s.received + 1, sources := SourceTable.Received(s.sources, ip, allowed))
  }

  /** One datagram, from canonical source `ip`. */
  ghost function Receive(u: Setup, s: Shared, ip: IpAddr, payload: seq<byte>): Shared {
    var counted := Counted(s, ip, Allowed(u.config, ip));
    match Verdict(u, s, ip, payload)
    case Some(why) => Discard(counted, ip, why)
    case None => Enqueue(counted, Message(payload, ip))
  }

  /** Whole seconds since the relay started. */
  function Second(s: Shared, now: nat): nat {
    if now < s.started then 0 else (now - s.started) / NANOS
  }

  function Popped(s: Shared, forwarded: bool, now: nat): Shared
    requires s.queue != []
  {
    var m := s.queue[0];
    s.(queue := s.queue[1..], queueBytes := s.queueBytes - |m.payload|,
       sources := if forwarded then SourceTable.Forwarded(s.sources, m.source, Second(s, now))
                  else SourceTable.Dropped(s.sources, m.source))
  }

  /** Ends the front message: forwarded, or dropped as oversized. */
  function FinishFront(s: Shared, forwarded: bool, now: nat): Shared {
    var popped := if s.queue == [] then s else Popped(s, forwarded, now);
    var quiet := popped.(queueDepth := |popped.queue|, inFlight := false);
    if forwarded then quiet.(forwarded := s.forwarded + 1)
    else quiet.(dropped := s.dropped + 1, drops := Charge(s.drops, Oversized))
  }

  function DroppedAll(t: SourceTable.Table, queue: seq<Message>): SourceTable.Table
    decreases |queue|
  {
    if queue == [] then t else DroppedAll(SourceTable.Dropped(t, queue[0].source), queue[1..])
  }

  /** The sender's last section: whatever is still queued is dropped by shutdown. */
  function Drain(s: Shared): Shared {
    var n := |s.queue|;
    s.(dropped := s.dropped + n, drops := s.drops.(shutdown := s.drops.shutdown + n),
       sources := DroppedAll(s.sources, s.queue),
       queue := [], queueDepth := 0, queueBytes := 0, inFlight := false)
  }

  function Stop(u: Setup, s: Shared, now: nat): Shared {
    if s.stopAt.Some? then s else s.(stopAt := Some(now + u.config.shutdownDrainMs * MILLI))
  }

  /** A listener failure stops the relay at once, whatever deadline was set before. */
  function ListenerFailed(s: Shared, now: nat): Shared {
    s.(stopAt := Some(now))
  }

  predicate Expired(s: Shared, now: nat) {
    s.stopAt.Some? && now >= s.stopAt.value
  }

  function NoteRetry(s: Shared): Shared {
    s.(retries := s.retries + 1)
  }
}
