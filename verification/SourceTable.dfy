/** The source table of crates/core/src/sources.rs on values. */
module SourceTable {
  import opened Config
  import opened Rings

  const SOURCE_LIMIT := 256
  const SECONDS := 61
  const MINUTES := 1440

  datatype SourceState = SourceState(
    allowed: bool, received: nat, forwarded: nat, dropped: nat,
    seconds: SecondRing, minutes: MinuteRing)

  type SecondRing = r: seq<Bucket> | |r| == SECONDS witness Blank(SECONDS)
  type MinuteRing = r: seq<Bucket> | |r| == MINUTES witness Blank(MINUTES)

  datatype Table = Table(entries: map<IpAddr, SourceState>, untracked: nat)

  /** One row of a snapshot. */
  datatype Row = Row(
    allowed: bool, received: nat, forwarded: nat, dropped: nat,
    perSecond: nat, perMinute: nat, last24h: nat)

  const NewTable := Table(map[], 0)

  function NewSource(allowed: bool): SourceState {
    SourceState(allowed, 0, 0, 0, Blank(SECONDS), Blank(MINUTES))
  }

  function Tracked(t: Table, ip: IpAddr, allowed: bool): Table {
    if ip in t.entries then t else t.(entries := t.entries[ip := NewSource(allowed)])
  }

  function Tallied(t: Table, ip: IpAddr): Table
    requires ip in t.entries
  {
    t.(entries := t.entries[ip := t.entries[ip].(received := t.entries[ip].received + 1)])
  }

  function Received(t: Table, ip: IpAddr, allowed: bool): Table {
    if ip !in t.entries && |t.entries| >= SOURCE_LIMIT then t.(untracked := t.untracked + 1)
    else Tallied(Tracked(t, ip, allowed), ip)
  }

  function Dropped(t: Table, ip: IpAddr): Table {
    if ip !in t.entries then t
    else t.(entries := t.entries[ip := t.entries[ip].(dropped := t.entries[ip].dropped + 1)])
  }

  function Stamped(s: SourceState, second: nat): SourceState {
    s.(forwarded := s.forwarded + 1, seconds := Bump(s.seconds, second), minutes := Bump(s.minutes, second / 60))
  }

  function Forwarded(t: Table, ip: IpAddr, second: nat): Table {
    if ip !in t.entries then t
    else t.(entries := t.entries[ip := Stamped(t.entries[ip], second)])
  }

  function RowOf(s: SourceState, second: nat): Row {
    Row(s.allowed, s.received, s.forwarded, s.dropped,
        Windowed(s.seconds, second, 1, 1),
        Windowed(s.seconds, second, 1, 60),
        Windowed(s.minutes, second / 60, 0, MINUTES - 1))
  }

  function Snapshot(t: Table, second: nat): map<IpAddr, Row> {
    map ip | ip in t.entries :: RowOf(t.entries[ip], second)
  }

  /** The rings of a source hold exactly the forwarding instants in `log`. */
  predicate Records(s: SourceState, log: seq<nat>) {
    && s.forwarded == |log|
    && s.seconds == Replay(SECONDS, log)
    && s.minutes == Replay(MINUTES, Minutes(log))
  }

  lemma StampedRecords(s: SourceState, log: seq<nat>, second: nat)
    requires Records(s, log)
    ensures Records(Stamped(s, second), log + [second])
  {
    ReplayAppend(SECONDS, log, second);
    assert Minutes(log + [second]) == Minutes(log) + [second / 60];
    ReplayAppend(MINUTES, Minutes(log), second / 60);
  }

  /** The three figures of a snapshot row against the complete event log: the last
      completed second, the last sixty, and the rolling day with its one-minute slack;
      and their order. */
  lemma RowIsExact(s: SourceState, log: seq<nat>, second: nat)
    requires Records(s, log) && Nondecreasing(log) && Until(log, second)
    ensures var row := RowOf(s, second);
            && row.perSecond == Count(log, second, 1, 1)
            && row.perMinute == Count(log, second, 1, 60)
            && row.last24h == Count(Minutes(log), second / 60, 0, 1439)
            && Count(log, second, 0, 86340) <= row.last24h <= Count(log, second, 0, 86399)
            && row.perSecond <= row.perMinute <= row.last24h <= row.forwarded
  {
    RingAgrees(SECONDS, log, second, 1, 1);
    RingAgrees(SECONDS, log, second, 1, 60);
    RingAgrees(MINUTES, Minutes(log), second / 60, 0, 1439);
    MinuteSandwich(log, second, 1439);
    CountMonotone(log, second, 1, 1, 1, 60);
    CountMonotone(log, second, 1, 60, 0, 86340);
    CountMonotone(log, second, 0, 86399, 0, 86399);
  }
}
