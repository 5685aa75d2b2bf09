/** The mutable source table of crates/core/src/sources.rs: bucket arrays updated in
    place, one pair per tracked source. */
module Sources {
  import opened Config
  import opened Rings
  import opened SourceTable

  class Source {
    var allowed: bool
    var received: nat
    var forwarded: nat
    var dropped: nat
    const seconds: array<Bucket>
    const minutes: array<Bucket>

    ghost predicate Valid() {
      seconds.Length == SECONDS && minutes.Length == MINUTES
    }

    ghost function View(): SourceState
      requires Valid()
      reads this, seconds, minutes
    {
      SourceState(allowed, received, forwarded, dropped, seconds[..], minutes[..])
    }

    constructor (allowed: bool)
      ensures Valid() && fresh(seconds) && fresh(minutes)
      ensures View() == NewSource(allowed)
    {
      this.allowed, received, forwarded, dropped := allowed, 0, 0, 0;
      seconds := new Bucket[SECONDS](_ => Bucket(0, 0));
      minutes := new Bucket[MINUTES](_ => Bucket(0, 0));
      new;
      assert seconds[..] == Blank(SECONDS) && minutes[..] == Blank(MINUTES);
    }

    method Receive()
      requires Valid()
      modifies this`received
      ensures View() == old(View()).(received := old(received) + 1)
    {
      received := received + 1;
    }

    method Drop()
      requires Valid()
      modifies this`dropped
      ensures View() == old(View()).(dropped := old(dropped) + 1)
    {
      dropped := dropped + 1;
    }

    method Forward(second: nat)
      requires Valid()
      modifies this, seconds, minutes
      ensures View() == Stamped(old(View()), second)
    {
      forwarded := forwarded + 1;
      IncrementAt(seconds, second % SECONDS, second);
      var minute := second / 60;
      IncrementAt(minutes, minute % MINUTES, minute);
    }

    method Figures(second: nat) returns (row: Row)
      requires Valid()
      ensures row == RowOf(View(), second)
    {
      var perSecond := SumWindow(seconds, second, 1, 1);
      var perMinute := SumWindow(seconds, second, 1, 60);
      var last24h := SumWindow(minutes, second / 60, 0, MINUTES - 1);
      row := Row(allowed, received, forwarded, dropped, perSecond, perMinute, last24h);
    }
  }

  /** Lazy reset: a bucket left over from another tick restarts at zero. */
  method IncrementAt(ring: array<Bucket>, slot: nat, tick: nat)
    requires slot < ring.Length && slot == tick % ring.Length
    modifies ring
    ensures ring[..] == Bump(old(ring[..]), tick)
  {
    if ring[slot].tick != tick {
      ring[slot] := Bucket(tick, 0);
    }
    ring[slot] := ring[slot].(count := ring[slot].count + 1);
  }

  method SumWindow(ring: array<Bucket>, now: nat, lo: nat, hi: nat) returns (sum: nat)
    ensures sum == Windowed(ring[..], now, lo, hi)
  {
    sum := 0;
    for k := 0 to ring.Length
      invariant sum == Windowed(ring[..k], now, lo, hi)
    {
      assert ring[..k + 1][..k] == ring[..k];
      if Within(ring[k].tick, now, lo, hi) {
        sum := sum + ring[k].count;
      }
    }
    assert ring[..ring.Length] == ring[..];
  }

  class Sources {
    var entries: map<IpAddr, Source>
    var untracked: nat
    ghost var Repr: set<object>

    ghost predicate Valid()
      reads this, Repr
      ensures Valid() ==> this in Repr
    {
      && this in Repr
      && (forall ip | ip in entries ::
            var s := entries[ip];
            {s, s.seconds, s.minutes} <= Repr && s.Valid())
      && (forall ip, jp | ip in entries && jp in entries && ip != jp ::
            var s, t := entries[ip], entries[jp];
            s != t && s.seconds != t.seconds && s.minutes != t.minutes)
    }

    ghost function View(): Table
      requires Valid()
      reads this, Repr
    {
      Table(map ip | ip in entries :: entries[ip].View(), untracked)
    }

    constructor ()
      ensures Valid() && fresh(Repr) && View() == NewTable
    {
      entries, untracked, Repr := map[], 0, {this};
    }

    method Received(ip: IpAddr, allowed: bool)
      requires Valid()
      modifies Repr
      ensures Valid() && fresh(Repr - old(Repr))
      ensures View() == SourceTable.Received(old(View()), ip, allowed)
    {
      hide Tracked;
      hide Tallied;
      assert |View().entries| == |entries| by { assert View().entries.Keys == entries.Keys; }
      if ip !in entries && |entries| >= SOURCE_LIMIT {
        TurnAway();
        return;
      }
      Track(ip, allowed);
      Tally(ip);
    }

    method TurnAway()
      requires Valid()
      modifies this`untracked
      ensures Valid() && View() == old(View()).(untracked := old(untracked) + 1)
    {
      untracked := untracked + 1;
    }

    method Tally(ip: IpAddr)
      requires Valid() && ip in entries
      modifies Repr
      ensures Valid() && fresh(Repr - old(Repr))
      ensures View() == Tallied(old(View()), ip)
    {
      entries[ip].Receive();
    }

    method Track(ip: IpAddr, allowed: bool)
      requires Valid()
      modifies this
      ensures Valid() && fresh(Repr - old(Repr)) && ip in entries
      ensures View() == Tracked(old(View()), ip, allowed)
    {
      if ip !in entries {
        var s := new Source(allowed);
        Insert(ip, s);
      }
    }

    method Insert(ip: IpAddr, s: Source)
      requires Valid() && ip !in entries
      requires s.Valid() && {s, s.seconds, s.minutes} !! Repr
      modifies this
      ensures Valid() && Repr == old(Repr) + {s, s.seconds, s.minutes}
      ensures entries == old(entries)[ip := s] && untracked == old(untracked)
    {
      entries := entries[ip := s];
      Repr := Repr + {s, s.seconds, s.minutes};
    }

    method Dropped(ip: IpAddr)
      requires Valid()
      modifies Repr
      ensures Valid() && fresh(Repr - old(Repr))
      ensures View() == SourceTable.Dropped(old(View()), ip)
    {
      if ip in entries {
        entries[ip].Drop();
      }
    }

    method Forwarded(ip: IpAddr, second: nat)
      requires Valid()
      modifies Repr
      ensures Valid() && fresh(Repr - old(Repr))
      ensures View() == SourceTable.Forwarded(old(View()), ip, second)
    {
      if ip in entries {
        entries[ip].Forward(second);
      }
    }

    method Snapshot(second: nat) returns (rows: map<IpAddr, Row>)
      requires Valid()
      ensures rows == SourceTable.Snapshot(View(), second)
    {
      rows := map[];
      var left := entries.Keys;
      while left != {}
        invariant left <= entries.Keys && rows.Keys == entries.Keys - left
        invariant forall ip | ip in rows :: rows[ip] == RowOf(entries[ip].View(), second)
        decreases left
      {
        var ip :| ip in left;
        var row := entries[ip].Figures(second);
        rows := rows[ip := row];
        left := left - {ip};
      }
    }
  }
}
