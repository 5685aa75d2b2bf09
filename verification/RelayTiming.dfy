/** Output pacing and retry delays of the sender (crates/core/src/relay.rs, `send`), over
    the whole sequence of calls. */
module RelayTiming {
  import opened Octets
  import opened Config
  import opened RelayModel
  import opened RelayMachine
  import opened RelayLedger
  import opened RelayProtocol

  // ---------- output pacing ----------

  /** Instants of the writes reported as sent. */
  function SentTimes(calls: seq<Call>): seq<nat> {
    if calls == [] then []
    else SentTimes(Front(calls)) + if Last(calls).Writing? && Last(calls).outcome.Sent? then [Last(calls).at] else []
  }

  predicate Spaced(times: seq<nat>, interval: nat) {
    forall i | 0 <= i < |times| - 1 :: times[i + 1] >= times[i] + interval
  }

  /** The next write cannot happen before the interval after the last successful one. */
  predicate Paced(u: Setup, w: World) {
    var times, s := SentTimes(w.history.calls), w.sender;
    && Spaced(times, u.config.interval)
    && (times != [] ==>
          && Last(times) <= w.now
          && (!s.pc.Wrote? && !s.pc.Finished? ==>
                && s.nextSend >= Last(times) + u.config.interval
                && (s.pending.Some? ==> w.now >= Last(times) + u.config.interval)))
  }

  lemma SentTimesAppend(calls: seq<Call>, c: Call)
    ensures SentTimes(calls + [c]) == SentTimes(calls) + if c.Writing? && c.outcome.Sent? then [c.at] else []
  {
    assert Front(calls + [c]) == calls;
  }

  lemma SentTimesAdded(calls: seq<Call>, more: seq<Call>)
    requires |more| <= 2 && (|more| == 2 ==> !more[0].Writing? && !more[1].Writing?)
    ensures SentTimes(calls + more)
         == SentTimes(calls)
            + if |more| == 1 && more[0].Writing? && more[0].outcome.Sent? then [more[0].at] else []
  {
    if |more| == 2 {
      assert calls + more == (calls + [more[0]]) + [more[1]];
      SentTimesAppend(calls, more[0]);
      SentTimesAppend(calls + [more[0]], more[1]);
    } else if |more| == 1 {
      assert more == [more[0]];
      SentTimesAppend(calls, more[0]);
    } else {
      assert calls + more == calls;
    }
  }

  /** How a sender step changes what pacing depends on. */
  lemma PacingEffect(u: Setup, w: World, a: Answer)
    requires Shape(w)
    ensures var s, s' := w.sender, OnSender(u, w, a).sender;
            && OnSender(u, w, a).now == w.now
            && (s.pc.Write? && a.write.Sent? ==> s'.pc.Wrote?)
            && (s.pc.Wrote? ==> s'.pc.Finished?)
            && (s.pc.Finished? ==> s'.pending.None? && s'.nextSend == w.now + u.config.interval)
            && (!s.pc.Finished? ==>
                  && s'.nextSend == s.nextSend
                  && (s'.pending.Some? && s.pending.None? ==> w.now >= s.nextSend))
            && ((s.pc.Write? ==> !a.write.Sent?) && !s.pc.Wrote? ==> !s'.pc.Wrote? && !s'.pc.Finished?)
  {
    hide OnConnecting;
    hide OnTransport;
    hide OnLoop;
    if Connecting(w.sender.pc) { PacingConnecting(u, w, a); }
    else if Transporting(w.sender.pc) { PacingTransport(u, w, a); }
    else { PacingLoop(u, w); }
  }

  lemma PacingConnecting(u: Setup, w: World, a: Answer)
    requires Connecting(w.sender.pc)
    ensures var s, w' := w.sender, OnConnecting(u, w, a);
            && w'.now == w.now && w'.sender.nextSend == s.nextSend
            && (w'.sender.pending.Some? ==> s.pending.Some?)
            && !w'.sender.pc.Wrote? && !w'.sender.pc.Finished?
  {
    hide NextJitter;
    hide JitteredMs;
  }

  lemma PacingTransport(u: Setup, w: World, a: Answer)
    requires Shape(w) && Transporting(w.sender.pc)
    ensures var s, w' := w.sender, OnTransport(u, w, a);
            var s' := w'.sender;
            && w'.now == w.now
            && (s.pc.Write? && a.write.Sent? ==> s'.pc.Wrote?)
            && (s.pc.Wrote? ==> s'.pc.Finished?)
            && (s.pc.Finished? ==> s'.pending.None? && s'.nextSend == w.now + u.config.interval)
            && (!s.pc.Finished? ==>
                  && s'.nextSend == s.nextSend
                  && (s'.pending.Some? && s.pending.None? ==> w.now >= s.nextSend))
            && ((s.pc.Write? ==> !a.write.Sent?) && !s.pc.Wrote? ==> !s'.pc.Wrote? && !s'.pc.Finished?)
  {
    hide FinishFront;
  }

  lemma PacingLoop(u: Setup, w: World)
    requires !Connecting(w.sender.pc) && !Transporting(w.sender.pc)
    ensures var s, w' := w.sender, OnLoop(u, w);
            && w'.now == w.now && w'.sender.nextSend == s.nextSend
            && w'.sender.pending == s.pending && !w'.sender.pc.Wrote? && !w'.sender.pc.Finished?
  {
    hide Drain;
  }

  lemma PacedWrite(u: Setup, w: World, w': World)
    requires Paced(u, w) && w.sender.pc.Write? && w.sender.pending.Some?
    requires SentTimes(w'.history.calls) == SentTimes(w.history.calls) + [w.now]
    requires w'.now == w.now && w'.sender.pc.Wrote?
    ensures Paced(u, w')
  {
    var times, times' := SentTimes(w.history.calls), SentTimes(w'.history.calls);
    forall i | 0 <= i < |times'| - 1 ensures times'[i + 1] >= times'[i] + u.config.interval {
      if i < |times| - 1 {
        assert times[i + 1] >= times[i] + u.config.interval;
      } else {
        assert times'[i] == Last(times);
      }
    }
  }

  lemma PacedElse(u: Setup, w: World, w': World)
    requires Paced(u, w) && SentTimes(w'.history.calls) == SentTimes(w.history.calls) + [] && w'.now == w.now
    requires w.sender.pc.Wrote? ==> w'.sender.pc.Finished?
    requires w.sender.pc.Finished? ==> w'.sender.pending.None? && w'.sender.nextSend == w.now + u.config.interval
    requires !w.sender.pc.Finished? ==>
               && w'.sender.nextSend == w.sender.nextSend
               && (w'.sender.pending.Some? && w.sender.pending.None? ==> w.now >= w.sender.nextSend)
    requires !w.sender.pc.Wrote? ==> !w'.sender.pc.Wrote? && !w'.sender.pc.Finished?
    ensures Paced(u, w')
  {
  }

  lemma PacedSender(u: Setup, w: World, a: Answer)
    requires Shape(w) && Paced(u, w)
    ensures Paced(u, OnSender(u, w, a))
  {
    hide OnSender;
    hide NextJitter;
    hide JitteredMs;
    hide Paced;
    SentTimesOf(u, w, a);
    hide SentTimes;
    PacingEffect(u, w, a);
    WroteAfter(u, w, a);
    if w.sender.pc.Write? && a.write.Sent? {
      PacedWrite(u, w, OnSender(u, w, a));
    } else {
      PacedElse(u, w, OnSender(u, w, a));
    }
  }

  /** Only a write reported as sent adds an instant. */
  lemma SentTimesOf(u: Setup, w: World, a: Answer)
    requires Shape(w)
    ensures SentTimes(OnSender(u, w, a).history.calls)
         == SentTimes(w.history.calls) + if w.sender.pc.Write? && a.write.Sent? then [w.now] else []
  {
    hide OnSender;
    hide NextJitter;
    hide JitteredMs;
    CallsAdded(u, w, a);
    SentTimesAdded(w.history.calls, CallsOf(u, w, a));
    hide SentTimes;
  }

  lemma PacedStep(u: Setup, w: World, step: Step)
    requires Shape(w) && Paced(u, w) && Enabled(w, step)
    ensures Paced(u, Apply(u, w, step))
  {
    hide OnSender;
    hide Receive;
    hide SentTimes;
    match step
    case SenderStep(a) => PacedSender(u, w, a);
    case _ =>
  }

  /** Writes i and j of a paced run are at least j - i intervals apart. */
  lemma {:induction false} Apart(times: seq<nat>, interval: nat, i: nat, j: nat)
    requires Spaced(times, interval) && i <= j < |times|
    ensures times[j] >= times[i] + (j - i) * interval
    decreases j
  {
    if i < j {
      Apart(times, interval, i, j - 1);
      assert times[(j - 1) + 1] >= times[j - 1] + interval;
      assert (j - i) * interval == (j - 1 - i) * interval + interval;
    }
  }

  /** Any stretch of writes within a window of length `span` has at most
      `span / interval + 1` of them. */
  lemma WindowHolds(times: seq<nat>, interval: nat, i: nat, j: nat, span: nat)
    requires interval > 0 && Spaced(times, interval) && i <= j < |times|
    requires times[j] - times[i] <= span
    ensures j - i + 1 <= span / interval + 1
  {
    Apart(times, interval, i, j);
    Quotient(j - i, interval, span);
  }

  lemma Quotient(n: nat, d: nat, span: nat)
    requires d > 0 && n * d <= span
    ensures n <= span / d
  {
    var q := span / d;
    assert span < q * d + d;
    assert (q + 1) * d == q * d + d;
    if n > q {
      Scale(q + 1, n, d);
    }
  }

  lemma IntervalPositive(c: Config)
    requires Valid(c)
    ensures c.interval > 0
  {
    assert c.interval == 0 ==> 2 * c.interval * c.messagesPerSecond == 0;
  }

  // ---------- retry delays ----------

  function Pow2(k: nat): nat {
    if k == 0 then 1 else 2 * Pow2(k - 1)
  }

  /** The delay after `k` failures in a row. */
  function DelayAfter(c: Config, k: nat): nat {
    Least(c.retryInitialMs * Pow2(k), c.retryMaxMs)
  }

  lemma DelayDoubles(c: Config, k: nat)
    ensures DelayAfter(c, k + 1) == Least(DelayAfter(c, k) * 2, c.retryMaxMs)
    ensures c.retryInitialMs <= c.retryMaxMs ==> DelayAfter(c, 0) == c.retryInitialMs
  {
    assert c.retryInitialMs * Pow2(k + 1) == (c.retryInitialMs * Pow2(k)) * 2;
    assert Pow2(0) == 1;
  }

  /** Failure pauses since the last successful write, or since the start. */
  function Streak(calls: seq<Call>): nat {
    if calls == [] then 0
    else if Last(calls).Resting? then Streak(Front(calls)) + 1
    else if Last(calls).Writing? && Last(calls).outcome.Sent? then 0
    else Streak(Front(calls))
  }

  /** Every pause has the length its failure count demands: the delay itself after a lost
      session, the delay give or take a quarter, capped, after a failed connection. */
  predicate RestOk(c: Config, calls: seq<Call>, i: nat)
    requires i < |calls|
  {
    calls[i].Resting? ==>
      var delay, ms := DelayAfter(c, Streak(calls[..i])), calls[i].ms;
      if calls[i].connecting then delay * 3 / 4 <= ms <= Least(delay * 5 / 4, c.retryMaxMs) else ms == delay
  }

  predicate RestsOk(c: Config, calls: seq<Call>) {
    forall i | 0 <= i < |calls| :: RestOk(c, calls, i)
  }

  predicate BackedOff(u: Setup, w: World) {
    var s, streak := w.sender, Streak(w.history.calls);
    && (s.pc.Backoff? ==> streak > 0 && s.delay == DelayAfter(u.config, streak - 1))
    && (!s.pc.Backoff? && !s.pc.Wrote? && !s.pc.Finished? ==> s.delay == DelayAfter(u.config, streak))
    && (s.pc.Wrote? || s.pc.Finished? ==> streak == 0)
    && s.jitter != 0
    && RestsOk(u.config, w.history.calls)
  }

  lemma LeftShiftKeeps13(j: bv64)
    ensures j != 0 ==> j ^ (j << 13) != 0
  {
  }

  lemma RightShiftKeeps7(j: bv64)
    ensures j != 0 ==> j ^ (j >> 7) != 0
  {
  }

  lemma LeftShiftKeeps17(j: bv64)
    ensures j != 0 ==> j ^ (j << 17) != 0
  {
  }

  /** The xorshift state never becomes zero. */
  lemma JitterStaysNonzero(j: bv64)
    requires j != 0
    ensures NextJitter(j) != 0
  {
    var a := j ^ (j << 13);
    LeftShiftKeeps13(j);
    RightShiftKeeps7(a);
    LeftShiftKeeps17(a ^ (a >> 7));
  }

  /** The step on the smallest seed, worked out by hand: shifts of 13, 7 and 17. */
  lemma JitterVector()
    ensures NextJitter(1) == 0x4082_2041
  {
  }

  lemma JitterRange(delay: nat, jitter: bv64, max: nat)
    requires delay <= max
    ensures delay * 3 / 4 <= JitteredMs(delay, jitter, max) <= Least(delay * 5 / 4, max)
  {
    var spread := (jitter as nat) % (delay / 2 + 1);
    assert spread <= delay / 2;
  }

  lemma StreakAppend(calls: seq<Call>, c: Call)
    ensures Streak(calls + [c])
         == if c.Resting? then Streak(calls) + 1
            else if c.Writing? && c.outcome.Sent? then 0
            else Streak(calls)
  {
    assert Front(calls + [c]) == calls;
  }

  lemma RestsKept(c: Config, calls: seq<Call>, call: Call)
    requires RestsOk(c, calls)
    requires call.Resting? ==>
               var delay := DelayAfter(c, Streak(calls));
               if call.connecting then delay * 3 / 4 <= call.ms <= Least(delay * 5 / 4, c.retryMaxMs)
               else call.ms == delay
    ensures RestsOk(c, calls + [call])
  {
    var all := calls + [call];
    forall i | 0 <= i < |all| ensures RestOk(c, all, i) {
      if i < |calls| {
        assert RestOk(c, calls, i) && all[..i] == calls[..i];
      } else {
        assert all[..i] == calls;
      }
    }
  }

  lemma BackedOffConnecting(u: Setup, w: World, a: Answer)
    requires Valid(u.config) && Shape(w) && BackedOff(u, w) && Connecting(w.sender.pc)
    ensures BackedOff(u, OnConnecting(u, w, a))
  {
    hide RestsOk;
    hide DelayAfter;
    hide NextJitter;
    hide JitteredMs;
    hide Streak;
    var calls, s := w.history.calls, w.sender;
    match s.pc
    case Dial(addresses) =>
      var dialled, linked := Dialled(s.attempts % addresses, addresses, w.now), Connected(Session(s.attempts, a.amount));
      StreakAppend(calls, dialled);
      RestsKept(u.config, calls, dialled);
      StreakAppend(calls + [dialled], linked);
      RestsKept(u.config, calls + [dialled], linked);
    case Retry => BackedOffRetry(u, w);
    case _ =>
  }

  lemma BackedOffRetry(u: Setup, w: World)
    requires Shape(w) && BackedOff(u, w) && w.sender.pc.Retry?
    ensures BackedOff(u, OnRetry(u, w))
  {
    hide RestsOk;
    var s := w.sender;
    JitterStaysNonzero(s.jitter);
    hide NextJitter;
    JitterRange(s.delay, NextJitter(s.jitter), u.config.retryMaxMs);
    hide JitteredMs;
    var rest := Resting(true, JitteredMs(s.delay, NextJitter(s.jitter), u.config.retryMaxMs), w.now);
    StreakAppend(w.history.calls, rest);
    RestsKept(u.config, w.history.calls, rest);
  }

  lemma BackedOffTransport(u: Setup, w: World, a: Answer)
    requires Valid(u.config) && Shape(w) && BackedOff(u, w) && Transporting(w.sender.pc)
    ensures BackedOff(u, OnTransport(u, w, a))
  {
    hide RestsOk;
    hide FinishFront;
    hide Streak;
    DelayDoubles(u.config, 0);
    hide DelayAfter;
    var calls, s := w.history.calls, w.sender;
    match s.pc
    case Poll => BackedOffCall(u, calls, Polling(s.session.value.id, a.ok));
    case Write => BackedOffCall(u, calls, Writing(s.session.value.id, s.pending.value, a.write, w.now));
    case Failed => BackedOffCall(u, calls, Closing(s.session.value.id));
    case Lost => BackedOffCall(u, calls, Resting(false, s.delay, w.now));
    case _ =>
  }

  lemma BackedOffCall(u: Setup, calls: seq<Call>, call: Call)
    requires RestsOk(u.config, calls)
    requires call.Resting? ==> !call.connecting && call.ms == DelayAfter(u.config, Streak(calls))
    ensures RestsOk(u.config, calls + [call])
    ensures Streak(calls + [call])
         == if call.Resting? then Streak(calls) + 1
            else if call.Writing? && call.outcome.Sent? then 0
            else Streak(calls)
  {
    hide DelayAfter;
    StreakAppend(calls, call);
    RestsKept(u.config, calls, call);
  }

  lemma BackedOffLoop(u: Setup, w: World)
    requires Valid(u.config) && Shape(w) && BackedOff(u, w) && !Connecting(w.sender.pc) && !Transporting(w.sender.pc)
    ensures BackedOff(u, OnLoop(u, w))
  {
    hide RestsOk;
    hide Drain;
    if w.sender.pc.Leaving? && w.sender.session.Some? {
      var closing := Closing(w.sender.session.value.id);
      StreakAppend(w.history.calls, closing);
      RestsKept(u.config, w.history.calls, closing);
    }
    if w.sender.pc.Backoff? {
      DelayDoubles(u.config, Streak(w.history.calls) - 1);
    }
  }

  lemma BackedOffStep(u: Setup, w: World, step: Step)
    requires Valid(u.config) && Shape(w) && BackedOff(u, w) && Enabled(w, step)
    ensures BackedOff(u, Apply(u, w, step))
  {
    hide OnConnecting;
    hide OnTransport;
    hide OnLoop;
    hide Receive;
    hide RestsOk;
    match step
    case SenderStep(a) =>
      if Connecting(w.sender.pc) { BackedOffConnecting(u, w, a); }
      else if Transporting(w.sender.pc) { BackedOffTransport(u, w, a); }
      else { BackedOffLoop(u, w); }
    case _ =>
  }
}
