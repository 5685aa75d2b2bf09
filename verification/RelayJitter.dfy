/** The pauses after failed connections in closed form (crates/core/src/relay.rs, `send`):
    the delay of the failures so far, varied by the xorshift sequence of the seed. */
module RelayJitter {
  import opened Octets
  import opened Config
  import opened RelayModel
  import opened RelayMachine
  import opened RelayLedger
  import opened RelayProtocol
  import opened RelayTiming

  /** The seed after `n` steps of the generator. */
  function Shuffled(seed: bv64, n: nat): bv64 {
    if n == 0 then seed else NextJitter(Shuffled(seed, n - 1))
  }

  /** Failed connections so far. */
  function FailedDials(calls: seq<Call>): nat {
    if calls == [] then 0 else FailedDials(Front(calls)) + if Last(calls).Resting? && Last(calls).connecting then 1 else 0
  }

  /** The length of a pause after a failed connection. */
  predicate PauseOk(c: Config, seed: bv64, calls: seq<Call>, i: nat)
    requires i < |calls|
  {
    calls[i].Resting? && calls[i].connecting ==>
      var delay, draw := DelayAfter(c, Streak(calls[..i])), Shuffled(seed, FailedDials(calls[..i]) + 1);
      var varied := delay * 3 / 4 + (draw as nat) % (delay / 2 + 1);
      calls[i].ms == if varied <= c.retryMaxMs then varied else c.retryMaxMs
  }

  predicate Jittered(u: Setup, w: World) {
    && w.sender.jitter == Shuffled(w.history.seed, FailedDials(w.history.calls))
    && forall i | 0 <= i < |w.history.calls| :: PauseOk(u.config, w.history.seed, w.history.calls, i)
  }

  lemma FailedDialsAppend(calls: seq<Call>, c: Call)
    ensures FailedDials(calls + [c]) == FailedDials(calls) + if c.Resting? && c.connecting then 1 else 0
  {
    assert Front(calls + [c]) == calls;
  }

  lemma PausesAppend(c: Config, seed: bv64, calls: seq<Call>, call: Call)
    requires forall i | 0 <= i < |calls| :: PauseOk(c, seed, calls, i)
    requires call.Resting? && call.connecting ==>
               var delay, draw := DelayAfter(c, Streak(calls)), Shuffled(seed, FailedDials(calls) + 1);
               var varied := delay * 3 / 4 + (draw as nat) % (delay / 2 + 1);
               call.ms == if varied <= c.retryMaxMs then varied else c.retryMaxMs
    ensures forall i | 0 <= i <= |calls| :: PauseOk(c, seed, calls + [call], i)
  {
    hide DelayAfter;
    hide Streak;
    hide Shuffled;
    hide FailedDials;
    var all := calls + [call];
    forall i | 0 <= i < |all| ensures PauseOk(c, seed, all, i) {
      if i < |calls| {
        assert PauseOk(c, seed, calls, i) && all[..i] == calls[..i];
      } else {
        assert all[..i] == calls;
      }
    }
  }

  /** Calls other than pauses after failed connections change nothing here. */
  lemma OtherCalls(c: Config, seed: bv64, calls: seq<Call>, more: seq<Call>)
    requires forall i | 0 <= i < |calls| :: PauseOk(c, seed, calls, i)
    requires |more| <= 2 && forall k | 0 <= k < |more| :: !(more[k].Resting? && more[k].connecting)
    ensures FailedDials(calls + more) == FailedDials(calls)
    ensures forall i | 0 <= i < |calls + more| :: PauseOk(c, seed, calls + more, i)
  {
    hide PauseOk;
    if |more| == 2 {
      assert calls + more == (calls + [more[0]]) + [more[1]];
      PausesAppend(c, seed, calls, more[0]);
      FailedDialsAppend(calls, more[0]);
      PausesAppend(c, seed, calls + [more[0]], more[1]);
      FailedDialsAppend(calls + [more[0]], more[1]);
    } else if |more| == 1 {
      assert more == [more[0]];
      PausesAppend(c, seed, calls, more[0]);
      FailedDialsAppend(calls, more[0]);
    } else {
      assert calls + more == calls;
    }
  }

  lemma JitteredRetry(u: Setup, w: World)
    requires Shape(w) && BackedOff(u, w) && Jittered(u, w) && w.sender.pc.Retry?
    ensures Jittered(u, OnRetry(u, w))
  {
    assert w.sender.delay == DelayAfter(u.config, Streak(w.history.calls));
    hide BackedOff;
    hide NextJitter;
    hide Streak;
    hide DelayAfter;
    hide PauseOk;
    var calls, s := w.history.calls, w.sender;
    var rest := Resting(true, JitteredMs(s.delay, NextJitter(s.jitter), u.config.retryMaxMs), w.now);
    assert Shuffled(w.history.seed, FailedDials(calls) + 1) == NextJitter(s.jitter);
    FailedDialsAppend(calls, rest);
    PausesAppend(u.config, w.history.seed, calls, rest);
  }

  lemma SameJitter(u: Setup, w: World, a: Answer)
    requires !w.sender.pc.Retry?
    ensures var w' := OnSender(u, w, a); w'.sender.jitter == w.sender.jitter && w'.history.seed == w.history.seed
  {
    hide FinishFront;
    hide Drain;
  }

  lemma JitteredSender(u: Setup, w: World, a: Answer)
    requires Shape(w) && BackedOff(u, w) && Jittered(u, w)
    ensures Jittered(u, OnSender(u, w, a))
  {
    if w.sender.pc.Retry? {
      JitteredRetry(u, w);
      assert OnSender(u, w, a) == OnRetry(u, w) by { hide OnRetry; }
      hide OnSender;
      hide OnRetry;
    } else {
      CallsAdded(u, w, a);
      SameJitter(u, w, a);
      hide OnSender;
      hide PauseOk;
      hide FailedDials;
      OtherCalls(u.config, w.history.seed, w.history.calls, CallsOf(u, w, a));
    }
  }

  lemma JitteredStep(u: Setup, w: World, step: Step)
    requires Shape(w) && BackedOff(u, w) && Jittered(u, w) && Enabled(w, step)
    ensures Jittered(u, Apply(u, w, step))
  {
    hide OnSender;
    hide Receive;
    hide Heard;
    hide PauseOk;
    hide BackedOff;
    match step
    case SenderStep(a) => JitteredSender(u, w, a);
    case _ =>
  }
}
