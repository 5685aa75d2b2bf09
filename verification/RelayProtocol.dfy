/** The discipline the sender keeps towards the transport (crates/core/src/relay.rs,
    `send`), as the session requires it (crates/dtls-openssl/src/lib.rs): over the whole
    sequence of calls, not one call at a time. */
module RelayProtocol {
  import opened Octets
  import opened Config
  import opened Framing
  import opened RelayModel
  import opened RelayMachine
  import opened RelayLedger

  // ---------- what a prefix of calls says about the transport ----------

  function Front<T>(s: seq<T>): seq<T>
    requires s != []
  {
    s[..|s| - 1]
  }

  function Last<T>(s: seq<T>): T
    requires s != []
  {
    s[|s| - 1]
  }

  /** The session connected last, unless it was closed. */
  function OpenSession(calls: seq<Call>): Option<Session> {
    if calls == [] then None
    else match Last(calls)
      case Connected(session) => Some(session)
      case Closing(_) => None
      case _ => OpenSession(Front(calls))
  }

  /** The frame of a write that has to be repeated. */
  function Outstanding(calls: seq<Call>): Option<seq<byte>> {
    if calls != [] && Last(calls).Writing? && Last(calls).outcome.WouldBlock? then Some(Last(calls).frame) else None
  }

  /** The last call failed: only closing remains. */
  predicate Broken(calls: seq<Call>) {
    calls != [] && ((Last(calls).Writing? && Last(calls).outcome.Error?) || (Last(calls).Polling? && !Last(calls).ok))
  }

  predicate IdsBelow(calls: seq<Call>, bound: nat) {
    forall k | 0 <= k < |calls| && calls[k].Connected? :: calls[k].session.id < bound
  }

  function Dials(calls: seq<Call>): nat {
    if calls == [] then 0 else Dials(Front(calls)) + if Last(calls).Dialled? then 1 else 0
  }

  /** Whether `c` may follow the calls so far. */
  predicate Allows(calls: seq<Call>, c: Call) {
    var open := OpenSession(calls);
    match c
    case Dialled(remote, addresses, _) => open.None? && addresses > 0 && remote == Dials(calls) % addresses
    case Connected(session) => open.None? && IdsBelow(calls, session.id)
    case Resting(_, _, _) => open.None?
    case Polling(id, _) => open.Some? && open.value.id == id && Outstanding(calls).None? && !Broken(calls)
    case Writing(id, frame, _, _) =>
      && open.Some? && open.value.id == id && !Broken(calls)
      && frame != [] && |frame| <= open.value.maxPlaintext
      && (Outstanding(calls).Some? ==> Outstanding(calls).value == frame)
    case Closing(id) => open.Some? && open.value.id == id
  }

  predicate Disciplined(calls: seq<Call>) {
    calls == [] || (Disciplined(Front(calls)) && Allows(Front(calls), Last(calls)))
  }

  lemma DisciplinedAppend(calls: seq<Call>, c: Call)
    requires Disciplined(calls) && Allows(calls, c)
    ensures Disciplined(calls + [c])
    ensures OpenSession(calls + [c])
         == match c case Connected(s) => Some(s) case Closing(_) => None case _ => OpenSession(calls)
    ensures Dials(calls + [c]) == Dials(calls) + if c.Dialled? then 1 else 0
    ensures Last(calls + [c]) == c
  {
    assert Front(calls + [c]) == calls;
  }

  lemma IdsAppend(calls: seq<Call>, c: Call, bound: nat)
    requires IdsBelow(calls, bound) && (c.Connected? ==> c.session.id < bound)
    ensures IdsBelow(calls + [c], bound)
  {
  }

  // ---------- the sender keeps it ----------

  /** How the sender's private state matches what the calls so far say. */
  predicate Linked(w: World) {
    var calls, s := w.history.calls, w.sender;
    && Disciplined(calls)
    && OpenSession(calls) == s.session
    && IdsBelow(calls, s.attempts)
    && Dials(calls) == s.attempts
    && (Outstanding(calls).Some? ==> s.pending == Outstanding(calls) && !s.pc.Wrote? && !s.pc.Finished?)
    && (Broken(calls) ==> s.pc.Failed?)
  }

  lemma LinkedConnecting(u: Setup, w: World, a: Answer)
    requires Shape(w) && Linked(w) && Connecting(w.sender.pc)
    ensures Linked(OnConnecting(u, w, a))
  {
    hide NextJitter;
    hide JitteredMs;
    hide Disciplined;
    var calls, s := w.history.calls, w.sender;
    match s.pc
    case Dial(addresses) =>
      var dialled := Dialled(s.attempts % addresses, addresses, w.now);
      var linked := Connected(Session(s.attempts, a.amount));
      DisciplinedAppend(calls, dialled);
      IdsAppend(calls, dialled, s.attempts);
      if a.ok {
        DisciplinedAppend(calls + [dialled], linked);
        IdsAppend(calls + [dialled], linked, s.attempts + 1);
      }
    case Retry =>
      var rest := Resting(true, JitteredMs(s.delay, NextJitter(s.jitter), u.config.retryMaxMs), w.now);
      DisciplinedAppend(calls, rest);
      IdsAppend(calls, rest, s.attempts);
    case _ =>
  }

  lemma LinkedAppend(w: World, w': World, c: Call)
    requires Linked(w) && Allows(w.history.calls, c) && !c.Connected? && !c.Dialled?
    requires w'.history.calls == w.history.calls + [c]
    requires w'.sender.attempts == w.sender.attempts
    requires w'.sender.session == if c.Closing? then None else w.sender.session
    requires c.Writing? && c.outcome.WouldBlock? ==>
               w'.sender.pending == Some(c.frame) && !w'.sender.pc.Wrote? && !w'.sender.pc.Finished?
    requires (c.Writing? && c.outcome.Error?) || (c.Polling? && !c.ok) ==> w'.sender.pc.Failed?
    ensures Linked(w')
  {
    hide Disciplined;
    hide Allows;
    DisciplinedAppend(w.history.calls, c);
    IdsAppend(w.history.calls, c, w.sender.attempts);
    hide IdsBelow;
  }

  lemma LinkedTransport(u: Setup, w: World, a: Answer)
    requires Shape(w) && FrontOk(w) && Linked(w) && Transporting(w.sender.pc)
    ensures Linked(OnTransport(u, w, a))
  {
    hide FinishFront;
    hide Disciplined;
    hide IdsBelow;
    hide Dials;
    var w', s := OnTransport(u, w, a), w.sender;
    match s.pc
    case Poll => LinkedAppend(w, w', Polling(s.session.value.id, a.ok));
    case Write => LinkedAppend(w, w', Writing(s.session.value.id, s.pending.value, a.write, w.now));
    case Failed => LinkedAppend(w, w', Closing(s.session.value.id));
    case Lost => LinkedAppend(w, w', Resting(false, s.delay, w.now));
    case _ =>
  }

  lemma LinkedLoop(u: Setup, w: World)
    requires Shape(w) && Linked(w) && !Connecting(w.sender.pc) && !Transporting(w.sender.pc)
    ensures Linked(OnLoop(u, w))
  {
    hide Drain;
    hide Disciplined;
    hide IdsBelow;
    hide Dials;
    if w.sender.pc.Leaving? && w.sender.session.Some? {
      LinkedAppend(w, OnLoop(u, w), Closing(w.sender.session.value.id));
    }
  }

  lemma LinkedStep(u: Setup, w: World, step: Step)
    requires Shape(w) && FrontOk(w) && Linked(w) && Enabled(w, step)
    ensures Linked(Apply(u, w, step))
  {
    hide OnConnecting;
    hide OnTransport;
    hide OnLoop;
    hide Receive;
    match step
    case SenderStep(a) =>
      if Connecting(w.sender.pc) { LinkedConnecting(u, w, a); }
      else if Transporting(w.sender.pc) { LinkedTransport(u, w, a); }
      else { LinkedLoop(u, w); }
    case _ =>
  }

  // ---------- what the discipline says about a whole sequence of calls ----------

  lemma {:induction false} AllowedAt(calls: seq<Call>, i: nat)
    requires Disciplined(calls) && i < |calls|
    ensures Disciplined(calls[..i]) && Allows(calls[..i], calls[i])
  {
    if i == |calls| - 1 {
      assert calls[..i] == Front(calls);
    } else {
      AllowedAt(Front(calls), i);
      assert Front(calls)[..i] == calls[..i];
    }
  }

  /** A write that would block is followed by the same write or by closing, nothing else. */
  lemma {:induction false} BlockedWriteIsRepeated(calls: seq<Call>, i: nat)
    requires Disciplined(calls) && i + 1 < |calls|
    requires calls[i].Writing? && calls[i].outcome.WouldBlock?
    ensures var next := calls[i + 1];
            || (next.Writing? && next.id == calls[i].id && next.frame == calls[i].frame)
            || next == Closing(calls[i].id)
  {
    AllowedAt(calls, i);
    AllowedAt(calls, i + 1);
    assert Front(calls[..i + 1]) == calls[..i] && Last(calls[..i + 1]) == calls[i];
  }

  /** After a failed poll or write the session is closed at once. */
  lemma {:induction false} FailureIsClosed(calls: seq<Call>, i: nat)
    requires Disciplined(calls) && i + 1 < |calls|
    requires (calls[i].Writing? && calls[i].outcome.Error?) || (calls[i].Polling? && !calls[i].ok)
    ensures calls[i + 1] == Closing(calls[i].id)
  {
    AllowedAt(calls, i);
    AllowedAt(calls, i + 1);
    assert Front(calls[..i + 1]) == calls[..i] && Last(calls[..i + 1]) == calls[i];
  }

  predicate Uses(c: Call, id: nat) {
    (c.Polling? || c.Writing? || c.Closing?) && c.id == id
  }

  lemma {:induction false} OpenIdConnected(calls: seq<Call>)
    ensures OpenSession(calls).Some? ==>
              exists k :: 0 <= k < |calls| && calls[k] == Connected(OpenSession(calls).value)
  {
    if calls != [] && OpenSession(calls).Some? {
      if Last(calls).Connected? {
        assert calls[|calls| - 1] == Connected(OpenSession(calls).value);
      } else {
        OpenIdConnected(Front(calls));
        var k :| 0 <= k < |Front(calls)| && Front(calls)[k] == Connected(OpenSession(calls).value);
        assert calls[k] == Connected(OpenSession(calls).value);
      }
    }
  }

  lemma {:induction false} LaterIdsAreNew(calls: seq<Call>, i: nat)
    requires Disciplined(calls) && i < |calls| && calls[i].Closing?
    ensures OpenSession(calls).Some? ==> OpenSession(calls).value.id > calls[i].id
    decreases |calls|
  {
    if i < |calls| - 1 {
      LaterIdsAreNew(Front(calls), i);
      if Last(calls).Connected? {
        AllowedAt(calls, i);
        OpenIdConnected(calls[..i]);
        var k :| 0 <= k < i && calls[..i][k] == Connected(OpenSession(calls[..i]).value);
        assert Front(calls)[k] == calls[k] == calls[..i][k];
      }
    }
  }

  /** A closed session is never polled, written to or closed again. */
  lemma {:induction false} NeverUsedAfterClose(calls: seq<Call>, i: nat, j: nat)
    requires Disciplined(calls) && i < j < |calls| && calls[i].Closing?
    ensures !Uses(calls[j], calls[i].id)
  {
    AllowedAt(calls, j);
    LaterIdsAreNew(calls[..j], i);
  }

  /** The size guard of the session's `send` never fires: every frame written is nonempty
      and within the plaintext budget of the session it is written to, which is the one
      connected last. */
  lemma {:induction false} WriteFitsItsSession(calls: seq<Call>, i: nat)
    requires Disciplined(calls) && i < |calls| && calls[i].Writing?
    ensures exists k | 0 <= k < i ::
              && calls[k].Connected? && calls[k].session.id == calls[i].id
              && 0 < |calls[i].frame| <= calls[k].session.maxPlaintext
              && forall m | k < m < i :: !calls[m].Connected? && !calls[m].Closing?
  {
    AllowedAt(calls, i);
    LastConnected(calls[..i]);
    var k :| 0 <= k < i && calls[..i][k] == Connected(OpenSession(calls[..i]).value)
             && forall m | k < m < i :: !calls[..i][m].Connected? && !calls[..i][m].Closing?;
    assert calls[k] == calls[..i][k];
    forall m | k < m < i ensures !calls[m].Connected? && !calls[m].Closing? {
      assert calls[m] == calls[..i][m];
    }
  }

  lemma {:induction false} LastConnected(calls: seq<Call>)
    requires OpenSession(calls).Some?
    ensures exists k | 0 <= k < |calls| ::
              && calls[k] == Connected(OpenSession(calls).value)
              && forall m | k < m < |calls| :: !calls[m].Connected? && !calls[m].Closing?
  {
    if Last(calls).Connected? {
      assert calls[|calls| - 1] == Connected(OpenSession(calls).value);
    } else {
      LastConnected(Front(calls));
      var k :| 0 <= k < |Front(calls)| && Front(calls)[k] == Connected(OpenSession(calls).value)
               && forall m | k < m < |Front(calls)| :: !Front(calls)[m].Connected? && !Front(calls)[m].Closing?;
      assert calls[k] == Front(calls)[k];
      forall m | k < m < |calls| ensures !calls[m].Connected? && !calls[m].Closing? {
        if m < |calls| - 1 { assert calls[m] == Front(calls)[m]; }
      }
    }
  }

  /** Successive dials rotate through the resolved addresses. */
  lemma {:induction false} DialsRotate(calls: seq<Call>, i: nat)
    requires Disciplined(calls) && i < |calls| && calls[i].Dialled?
    ensures calls[i].addresses > 0 && calls[i].remote == Dials(calls[..i]) % calls[i].addresses
  {
    AllowedAt(calls, i);
  }

  // ---------- one resolver thread at most ----------

  predicate OneLookup(w: World) {
    w.resolver.running + (if w.resolver.reply.NoReply? then 0 else 1) == (if w.sender.lookup then 1 else 0)
    && (w.sender.pc.Resolving? ==> w.sender.lookup)
  }

  lemma LookupKept(u: Setup, w: World, a: Answer)
    requires !Connecting(w.sender.pc)
    ensures OnSender(u, w, a).resolver == w.resolver && OnSender(u, w, a).sender.lookup == w.sender.lookup
    ensures !OnSender(u, w, a).sender.pc.Resolving?
  {
    hide FinishFront;
    hide Drain;
  }

  lemma OneLookupStep(u: Setup, w: World, step: Step)
    requires OneLookup(w) && Enabled(w, step)
    ensures OneLookup(Apply(u, w, step))
  {
    hide Receive;
    match step
    case SenderStep(a) =>
      if !Connecting(w.sender.pc) {
        LookupKept(u, w, a);
        hide OnSender;
      } else {
        hide NextJitter;
        hide JitteredMs;
      }
    case _ =>
  }
}
