/** The parts of crates/core/src/config.rs the relay's bounds rest on. */
module Config {
  import opened Octets

  /** An IPv6 address is its upper 96 bits and its lower 32. */
  datatype IpAddr = V4(bits: nat) | V6(high: nat, low: nat)

  const MAPPED := 0xFFFF

  /** IPv4 and its mapped IPv6 form are one source. */
  function CanonicalIp(ip: IpAddr): IpAddr {
    match ip
    case V6(high, low) => if high == MAPPED then V4(low) else ip
    case V4(_) => ip
  }

  predicate SameHost(a: IpAddr, b: IpAddr) {
    a == b
    || (a.V4? && b == V6(MAPPED, a.bits))
    || (b.V4? && a == V6(MAPPED, b.bits))
  }

  /** Canonical forms coincide exactly for addresses of the same host, and canonicalising
      again changes nothing. */
  lemma CanonicalIpIsSameHost(a: IpAddr, b: IpAddr)
    ensures CanonicalIp(a) == CanonicalIp(b) <==> SameHost(a, b)
    ensures CanonicalIp(CanonicalIp(a)) == CanonicalIp(a)
  {
  }

  datatype SourceMode = Any | Allowlist

  /** Numeric settings. `interval` is the pause after a successful write in nanoseconds:
      one second divided by `messagesPerSecond`, rounded to a nearest nanosecond. */
  datatype Config = Config(
    mode: SourceMode, allowedIps: seq<IpAddr>,
    maxMessageBytes: nat, maxMessages: nat, maxBytes: nat,
    handshakeTimeoutMs: nat, retryInitialMs: nat, retryMaxMs: nat,
    messagesPerSecond: nat, interval: nat, shutdownDrainMs: nat)

  const NANOS := 1_000_000_000
  const MILLI := 1_000_000

  predicate NearestInterval(interval: nat, messagesPerSecond: nat) {
    2 * NANOS - messagesPerSecond <= 2 * interval * messagesPerSecond <= 2 * NANOS + messagesPerSecond
  }

  function Gap(interval: nat, messagesPerSecond: nat): nat {
    var whole := interval * messagesPerSecond;
    if whole <= NANOS then NANOS - whole else whole - NANOS
  }

  /** No other number of nanoseconds comes closer to one second divided by the rate. */
  lemma NearestIsNearest(interval: nat, messagesPerSecond: nat)
    requires messagesPerSecond > 0
    ensures NearestInterval(interval, messagesPerSecond)
       <==> forall other: nat :: Gap(interval, messagesPerSecond) <= Gap(other, messagesPerSecond)
  {
    var m, whole := messagesPerSecond, interval * messagesPerSecond;
    assert 2 * interval * m == 2 * whole;
    assert (interval + 1) * m == whole + m;
    assert interval > 0 ==> (interval - 1) * m == whole - m;
    assert interval == 0 ==> whole == 0;
    if NearestInterval(interval, m) {
      forall other: nat ensures Gap(interval, m) <= Gap(other, m) {
        MultiplesApart(interval, other, m);
        Nearer(whole, other * m, m);
      }
    } else if 2 * whole < 2 * NANOS - m {
      assert Gap(interval + 1, m) < Gap(interval, m);
    } else {
      assert Gap(interval - 1, m) < Gap(interval, m);
    }
  }

  lemma Nearer(whole: nat, other: nat, m: nat)
    requires 2 * NANOS - m <= 2 * whole <= 2 * NANOS + m
    requires other == whole || other >= whole + m || whole >= other + m
    ensures (if whole <= NANOS then NANOS - whole else whole - NANOS) <= if other <= NANOS then NANOS - other else other - NANOS
  {
  }

  lemma MultiplesApart(a: nat, b: nat, m: nat)
    ensures a < b ==> b * m >= a * m + m
    ensures b < a ==> a * m >= b * m + m
  {
    if a < b {
      Scale(a + 1, b, m);
      assert (a + 1) * m == a * m + m;
    } else if b < a {
      Scale(b + 1, a, m);
      assert (b + 1) * m == b * m + m;
    }
  }

  lemma Scale(a: nat, b: nat, d: nat)
    requires a <= b
    ensures a * d <= b * d
  {
  }

  /** The limits the relay depends on. */
  predicate Valid(c: Config) {
    && |c.allowedIps| <= 4096
    && 1 <= c.maxMessageBytes <= 16378
    && 1 <= c.maxMessages <= 1_000_000
    && 1 <= c.maxBytes <= 1_073_741_824
    && 100 <= c.handshakeTimeoutMs <= 120_000
    && 100 <= c.retryInitialMs <= 60_000
    && c.retryInitialMs <= c.retryMaxMs <= 300_000
    && c.shutdownDrainMs <= 30_000
    && 1 <= c.messagesPerSecond <= 100_000
    && NearestInterval(c.interval, c.messagesPerSecond)
  }

  predicate Allowed(c: Config, ip: IpAddr) {
    c.mode == Any || exists k | 0 <= k < |c.allowedIps| :: CanonicalIp(c.allowedIps[k]) == ip
  }
}
