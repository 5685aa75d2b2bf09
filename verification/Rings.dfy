/** The bucket rings of crates/core/src/sources.rs on values: a fixed number of lazily
    reset buckets against counting over the whole unbounded event log. */
module Rings {

  datatype Bucket = Bucket(tick: nat, count: nat)

  function Increment(b: Bucket, tick: nat): Bucket {
    if b.tick != tick then Bucket(tick, 1) else Bucket(tick, b.count + 1)
  }

  function Bump(ring: seq<Bucket>, tick: nat): (r: seq<Bucket>)
    requires ring != []
    ensures |r| == |ring|
  {
    var slot := tick % |ring|;
    ring[slot := Increment(ring[slot], tick)]
  }

  function Blank(n: nat): seq<Bucket> {
    seq(n, _ => Bucket(0, 0))
  }

  /** Whether the age `now - tick` lies between `lo` and `hi`. */
  predicate Within(tick: nat, now: nat, lo: nat, hi: nat) {
    tick <= now && lo <= now - tick <= hi
  }

  function Share(b: Bucket, now: nat, lo: nat, hi: nat): nat {
    if Within(b.tick, now, lo, hi) then b.count else 0
  }

  /** What a snapshot adds up: the counts of the buckets whose tick is in the window. */
  function Windowed(ring: seq<Bucket>, now: nat, lo: nat, hi: nat): nat {
    if ring == [] then 0
    else Windowed(ring[..|ring| - 1], now, lo, hi) + Share(ring[|ring| - 1], now, lo, hi)
  }

  // ---------- the complete event log ----------

  /** The ring after every event of `log`, oldest first. */
  function Replay(n: nat, log: seq<nat>): (ring: seq<Bucket>)
    requires n > 0
    ensures |ring| == n
  {
    if log == [] then Blank(n) else Bump(Replay(n, log[..|log| - 1]), log[|log| - 1])
  }

  function Count(log: seq<nat>, now: nat, lo: nat, hi: nat): nat {
    if log == [] then 0
    else Count(log[..|log| - 1], now, lo, hi) + (if Within(log[|log| - 1], now, lo, hi) then 1 else 0)
  }

  predicate Nondecreasing(log: seq<nat>) {
    forall i, j | 0 <= i <= j < |log| :: log[i] <= log[j]
  }

  predicate Until(log: seq<nat>, now: nat) {
    forall i | 0 <= i < |log| :: log[i] <= now
  }

  lemma ReplayAppend(n: nat, log: seq<nat>, tick: nat)
    requires n > 0
    ensures Replay(n, log + [tick]) == Bump(Replay(n, log), tick)
  {
    assert (log + [tick])[..|log|] == log;
  }

  lemma CountAppend(log: seq<nat>, tick: nat, now: nat, lo: nat, hi: nat)
    ensures Count(log + [tick], now, lo, hi) == Count(log, now, lo, hi) + (if Within(tick, now, lo, hi) then 1 else 0)
  {
    assert (log + [tick])[..|log|] == log;
  }

  // ---------- the rings agree with the log ----------

  /** Every bucket that counts anything belongs to its slot and to a past tick. */
  lemma {:induction false} Settled(n: nat, log: seq<nat>, bound: nat)
    requires n > 0 && Until(log, bound)
    ensures forall j | 0 <= j < n ::
              var b := Replay(n, log)[j]; b.count == 0 || (b.tick % n == j && b.tick <= bound)
  {
    if log != [] {
      Settled(n, log[..|log| - 1], bound);
    }
  }

  lemma {:induction false} WindowedUpdate(ring: seq<Bucket>, j: nat, b: Bucket, now: nat, lo: nat, hi: nat)
    requires j < |ring|
    ensures Windowed(ring[j := b], now, lo, hi)
         == Windowed(ring, now, lo, hi) - Share(ring[j], now, lo, hi) + Share(b, now, lo, hi)
    ensures Windowed(ring, now, lo, hi) >= Share(ring[j], now, lo, hi)
  {
    var last := |ring| - 1;
    if j < last {
      WindowedUpdate(ring[..last], j, b, now, lo, hi);
      assert ring[j := b][..last] == ring[..last][j := b];
    } else {
      assert ring[j := b][..last] == ring[..last];
    }
  }

  lemma {:induction false} WindowedBlank(n: nat, now: nat, lo: nat, hi: nat)
    ensures Windowed(Blank(n), now, lo, hi) == 0
  {
    if n > 0 {
      WindowedBlank(n - 1, now, lo, hi);
      assert Blank(n)[..n - 1] == Blank(n - 1);
    }
  }

  lemma Multiple(n: nat, k: int)
    ensures k < 1 ==> n * k <= 0
    ensures k >= 1 ==> n * k >= n
  {
    assert n * k == n * (k - 1) + n;
  }

  lemma SameSlot(a: nat, b: nat, n: nat)
    requires n > 0 && a < b && a % n == b % n
    ensures b - a >= n
  {
    var p, q := a / n, b / n;
    calc {
      b - a;
      (n * q + b % n) - (n * p + a % n);
      n * q - n * p;
      n * (q - p);
    }
    Multiple(n, q - p);
  }

  /** For any nondecreasing log and any later instant, every window shorter than the ring
      is summed exactly: no live bucket was overwritten, no stale or blank one counts. */
  lemma {:induction false} RingAgrees(n: nat, log: seq<nat>, now: nat, lo: nat, hi: nat)
    requires n > 0 && hi < n
    requires Nondecreasing(log) && Until(log, now)
    ensures Windowed(Replay(n, log), now, lo, hi) == Count(log, now, lo, hi)
  {
    if log == [] {
      WindowedBlank(n, now, lo, hi);
    } else {
      var before, tick := log[..|log| - 1], log[|log| - 1];
      RingAgrees(n, before, now, lo, hi);
      var ring, slot := Replay(n, before), tick % n;
      Settled(n, before, tick);
      var prior := ring[slot];
      if prior.count > 0 && prior.tick < tick {
        SameSlot(prior.tick, tick, n);
      }
      WindowedUpdate(ring, slot, Increment(prior, tick), now, lo, hi);
    }
  }

  ghost predicate Exact(n: nat, lo: nat, hi: nat)
    requires n > 0
  {
    forall log, now | Nondecreasing(log) && Until(log, now) ::
      Windowed(Replay(n, log), now, lo, hi) == Count(log, now, lo, hi)
  }

  /** A ring of `n` buckets answers the window `lo..hi` exactly when `hi < n`; so 61 and
      1440 buckets are the fewest that serve windows of 60 seconds and 1440 minutes. */
  lemma RingSizeIsExact(n: nat, lo: nat, hi: nat)
    requires n > 0 && lo <= hi
    ensures Exact(n, lo, hi) <==> hi < n
  {
    if hi < n {
      forall log, now | Nondecreasing(log) && Until(log, now)
        ensures Windowed(Replay(n, log), now, lo, hi) == Count(log, now, lo, hi)
      {
        RingAgrees(n, log, now, lo, hi);
      }
    } else {
      Overwritten(n, lo, hi);
      assert Nondecreasing([0, n]) && Until([0, n], hi);
    }
  }

  /** Two events a whole turn apart: the second takes the bucket of the first. */
  lemma Overwritten(n: nat, lo: nat, hi: nat)
    requires 0 < n <= hi && lo <= hi
    ensures Windowed(Replay(n, [0, n]), hi, lo, hi) < Count([0, n], hi, lo, hi)
  {
    var log, first := [0, n], Replay(n, [0]);
    assert n % n == 0 && 0 % n == 0;
    ReplayAppend(n, [], 0);
    ReplayAppend(n, [0], n);
    assert [] + [0] == [0] && [0] + [n] == log;
    assert first == Blank(n)[0 := Bucket(0, 1)] && Replay(n, log) == first[0 := Bucket(n, 1)];
    WindowedBlank(n, hi, lo, hi);
    WindowedUpdate(Blank(n), 0, Bucket(0, 1), hi, lo, hi);
    WindowedUpdate(first, 0, Bucket(n, 1), hi, lo, hi);
    CountAppend([], 0, hi, lo, hi);
    CountAppend([0], n, hi, lo, hi);
  }

  // ---------- the 24-hour figure against exact ages in seconds ----------

  function Minutes(log: seq<nat>): (r: seq<nat>)
    ensures |r| == |log| && forall i | 0 <= i < |log| :: r[i] == log[i] / 60
  {
    seq(|log|, i requires 0 <= i < |log| => log[i] / 60)
  }

  lemma {:induction false} CountMonotone(log: seq<nat>, now: nat, lo: nat, hi: nat, lo': nat, hi': nat)
    requires lo' <= lo && hi <= hi'
    ensures Count(log, now, lo, hi) <= Count(log, now, lo', hi') <= |log|
  {
    if log != [] {
      CountMonotone(log[..|log| - 1], now, lo, hi, lo', hi');
    }
  }

  /** Counting in minutes from 0 to `hi` keeps every event aged at most `60 * hi` seconds
      and none aged `60 * (hi + 1)` seconds or more. */
  lemma {:induction false} MinuteSandwich(log: seq<nat>, second: nat, hi: nat)
    requires Until(log, second)
    ensures Count(log, second, 0, 60 * hi)
         <= Count(Minutes(log), second / 60, 0, hi)
         <= Count(log, second, 0, 60 * hi + 59)
  {
    if log != [] {
      var before, t := log[..|log| - 1], log[|log| - 1];
      MinuteSandwich(before, second, hi);
      assert Minutes(log)[..|log| - 1] == Minutes(before);
      assert t / 60 <= second / 60;
    }
  }
}
