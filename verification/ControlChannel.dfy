/** What a session is told and what it answers, over whole runs: control messages, requests for the
    stream state, and the stop message. */
module ControlChannel {
  import opened Sequences
  import opened Media
  import opened StreamSession
  import opened BroadcastRing
  import opened Connection
  import opened Pipeline
  import opened Lifecycle

  // ----- control messages

  /** The control messages handled in a trace. */
  function Handled(trace: seq<Event>): seq<Control> {
    if trace == [] then []
    else
      Handled(trace[..|trace| - 1])
      + match trace[|trace| - 1] case Play => [PlayMessage] case StreamState => [StreamStateMessage] case _ => []
  }

  /** The control messages that reach a session in a run. */
  function Posted(capacity: nat, sys: System, events: seq<SysEvent>, key: SessionKey): seq<Control> {
    if events == [] then []
    else
      var front, e := events[..|events| - 1], events[|events| - 1];
      var was := SysRun(capacity, sys, front);
      Posted(capacity, sys, front, key)
      + if e.OnSession? && e.key == key && e.sessEvent.Post? && key in was.sessions && !was.sessions[key].released
        then [e.sessEvent.message] else []
  }

  function ControlOf(s: Sess): seq<Control> {
    Handled(s.trace) + s.control
  }

  lemma {:induction false} HandledSnoc(trace: seq<Event>, e: Event)
    ensures Handled(trace + [e])
            == Handled(trace) + match e case Play => [PlayMessage] case StreamState => [StreamStateMessage] case _ => []
  {
    assert (trace + [e])[..|trace|] == trace;
  }

  /** One turn of the loop: the message it handles is the oldest one queued. */
  lemma {:induction false} TurnKeepsMessages(s: Sess, t: Sess, e: Event)
    requires t.trace == s.trace + [e]
    requires if e.Play? || e.StreamState? then s.control != [] && e == EventOf(s.control[0]) && t.control == s.control[1..]
             else t.control == s.control
    ensures ControlOf(t) == ControlOf(s)
  {
    HandledSnoc(s.trace, e);
    hide Handled;
    if e.Play? || e.StreamState? {
      assert s.control == [s.control[0]] + t.control;
      Associative(Handled(s.trace), [s.control[0]], t.control);
    } else {
      assert Handled(s.trace) + [] == Handled(s.trace);
    }
  }

  /** A step queues a message at the end, ends a turn, or leaves control alone. */
  lemma {:induction false} MessagesTurn(log: seq<Frame>, capacity: nat, key: SessionKey, s: Sess, c: Conn, e: SessEvent)
    ensures var t := SessStep(log, capacity, key, s, c, e).0;
            ControlOf(t) == ControlOf(s) + if e.Post? && !s.released then [e.message] else []
  {
    var t := SessStep(log, capacity, key, s, c, e).0;
    ControlShape(log, capacity, key, s, c, e);
    hide SessStep, Handled;
    if e.Post? && !s.released {
      Associative(Handled(s.trace), s.control, [e.message]);
    } else {
      assert ControlOf(s) + [] == ControlOf(s);
      if t.trace != s.trace {
        TurnKeepsMessages(s, t, t.trace[|s.trace|]);
      }
    }
  }

  lemma {:induction false} ControlShape(log: seq<Frame>, capacity: nat, key: SessionKey, s: Sess, c: Conn, e: SessEvent)
    ensures var t := SessStep(log, capacity, key, s, c, e).0;
            if e.Post? && !s.released then t.trace == s.trace && t.control == s.control + [e.message]
            else if t.trace == s.trace then t.control == s.control
            else
              && |t.trace| == |s.trace| + 1 && t.trace == s.trace + [t.trace[|s.trace|]]
              && var turn := t.trace[|s.trace|];
              if turn.Play? || turn.StreamState?
              then s.control != [] && turn == EventOf(s.control[0]) && t.control == s.control[1..]
              else t.control == s.control
  {
    hide Step, FatesOf, Begin, Number;
  }

  lemma {:induction false} MessagesStep(capacity: nat, sys: System, e: SysEvent, key: SessionKey)
    requires Known(sys, key)
    ensures var next := SysStep(capacity, sys, e);
            && Known(next, key)
            && ControlOf(next.sessions[key])
               == ControlOf(sys.sessions[key])
                  + if e.OnSession? && e.key == key && e.sessEvent.Post? && !sys.sessions[key].released then [e.sessEvent.message] else []
  {
    if e.OnSession? && e.key == key {
      MessagesTurn(sys.log, capacity, key, sys.sessions[key], sys.conns[key.conn], e.sessEvent);
    } else {
      assert ControlOf(sys.sessions[key]) + [] == ControlOf(sys.sessions[key]);
    }
    hide SessStep, ConnStep, ControlOf;
  }

  /** Control messages are handled in the order in which they were sent, each once: over any run, those
      handled and those queued are those handled and queued before, and then the ones sent since. */
  lemma {:induction false} ControlInOrder(capacity: nat, sys: System, events: seq<SysEvent>, key: SessionKey)
    requires Known(sys, key)
    ensures var now := SysRun(capacity, sys, events);
            Known(now, key) && ControlOf(now.sessions[key]) == ControlOf(sys.sessions[key]) + Posted(capacity, sys, events, key)
  {
    if events == [] {
      assert ControlOf(sys.sessions[key]) + [] == ControlOf(sys.sessions[key]);
    } else {
      var front, e := events[..|events| - 1], events[|events| - 1];
      ControlInOrder(capacity, sys, front, key);
      MessagesStep(capacity, SysRun(capacity, sys, front), e, key);
      hide SysStep, ControlOf;
      var s := SysRun(capacity, sys, front).sessions[key];
      Associative(ControlOf(sys.sessions[key]), Posted(capacity, sys, front, key),
                  if e.OnSession? && e.key == key && e.sessEvent.Post? && !s.released then [e.sessEvent.message] else []);
    }
  }

  /** From the subscription on, what a session has handled and what it has queued is just what was sent
      to it, in that order. */
  lemma {:induction false} ControlSinceSubscription(capacity: nat, events: seq<SysEvent>, key: SessionKey)
    requires Known(SysRun(capacity, INITIAL, events), key)
    ensures ControlOf(SysRun(capacity, INITIAL, events).sessions[key]) == Posted(capacity, INITIAL, events, key)
  {
    var front, e := events[..|events| - 1], events[|events| - 1];
    var was := SysRun(capacity, INITIAL, front);
    if Known(was, key) {
      ControlSinceSubscription(capacity, front, key);
      MessagesStep(capacity, was, e, key);
      hide SysStep, ControlOf;
    } else {
      Invariant(capacity, front);
      NewlyKnown(capacity, was, e, key);
      PostedUnknown(capacity, front, key);
      hide SysStep, SysInv;
    }
  }

  lemma {:induction false} PostedUnknown(capacity: nat, events: seq<SysEvent>, key: SessionKey)
    requires !Known(SysRun(capacity, INITIAL, events), key)
    ensures Posted(capacity, INITIAL, events, key) == []
  {
    if events != [] {
      var front, e := events[..|events| - 1], events[|events| - 1];
      var was := SysRun(capacity, INITIAL, front);
      if Known(was, key) {
        StaysKnown(capacity, was, e, key);
      }
      PostedUnknown(capacity, front, key);
      Invariant(capacity, front);
      assert key in was.sessions ==> SessionOk(was, key);
      hide SysStep, SysInv, SessionOk;
    }
  }

  lemma {:induction false} StaysKnown(capacity: nat, sys: System, e: SysEvent, key: SessionKey)
    requires Known(sys, key)
    ensures Known(SysStep(capacity, sys, e), key)
  {
    hide SessStep, ConnStep;
  }

  /** Somebody has sent the stop message of this session. */
  ghost predicate AskedToStop(capacity: nat, sys: System, events: seq<SysEvent>, key: SessionKey) {
    exists i | 0 <= i < |events| :: events[i] == OnSession(key, SendStop) && Known(SysRun(capacity, sys, events[..i]), key)
  }

  lemma {:induction false} AskedSnoc(capacity: nat, sys: System, events: seq<SysEvent>, key: SessionKey)
    requires events != []
    ensures var front, e := events[..|events| - 1], events[|events| - 1];
            AskedToStop(capacity, sys, events, key)
            <==> AskedToStop(capacity, sys, front, key) || (e == OnSession(key, SendStop) && Known(SysRun(capacity, sys, front), key))
  {
    hide SysRun, Known;
    var front := events[..|events| - 1];
    forall i | 0 <= i < |front| ensures front[i] == events[i] && front[..i] == events[..i] {
    }
  }

  lemma {:induction false} NotAsked(capacity: nat, events: seq<SysEvent>, key: SessionKey)
    requires !Known(SysRun(capacity, INITIAL, events), key)
    ensures !AskedToStop(capacity, INITIAL, events, key)
  {
    if events != [] {
      var front, e := events[..|events| - 1], events[|events| - 1];
      AskedSnoc(capacity, INITIAL, events, key);
      if Known(SysRun(capacity, INITIAL, front), key) {
        StaysKnown(capacity, SysRun(capacity, INITIAL, front), e, key);
      }
      hide SysStep, AskedToStop;
      NotAsked(capacity, front, key);
    }
  }

  lemma {:induction false} AskedTurn(log: seq<Frame>, capacity: nat, key: SessionKey, s: Sess, c: Conn, e: SessEvent)
    ensures SessStep(log, capacity, key, s, c, e).0.stopSent == (s.stopSent || e.SendStop?)
  {
    hide Step, FatesOf, Begin, Number;
  }

  lemma {:induction false} AskedStep(capacity: nat, sys: System, e: SysEvent, key: SessionKey)
    requires Known(sys, key)
    ensures var next := SysStep(capacity, sys, e);
            Known(next, key) && next.sessions[key].stopSent == (sys.sessions[key].stopSent || e == OnSession(key, SendStop))
  {
    if e.OnSession? && e.key == key {
      AskedTurn(sys.log, capacity, key, sys.sessions[key], sys.conns[key.conn], e.sessEvent);
    }
    hide SessStep, ConnStep;
  }

  /** A session has been asked to stop if and only if somebody sent it the stop message. */
  lemma {:induction false} AskedIff(capacity: nat, events: seq<SysEvent>, key: SessionKey)
    requires Known(SysRun(capacity, INITIAL, events), key)
    ensures SysRun(capacity, INITIAL, events).sessions[key].stopSent <==> AskedToStop(capacity, INITIAL, events, key)
  {
    var front, e := events[..|events| - 1], events[|events| - 1];
    var was := SysRun(capacity, INITIAL, front);
    AskedSnoc(capacity, INITIAL, events, key);
    if Known(was, key) {
      AskedIff(capacity, front, key);
      AskedStep(capacity, was, e, key);
      hide SysStep, AskedToStop;
    } else {
      Invariant(capacity, front);
      NewlyKnown(capacity, was, e, key);
      NotAsked(capacity, front, key);
      hide SysStep, AskedToStop, SysInv;
    }
  }

  // ----- replies

  /** How many of these messages ask for a reply. */
  function Requests(messages: seq<Control>): nat {
    if messages == [] then 0
    else Requests(messages[..|messages| - 1]) + if messages[|messages| - 1].StreamStateMessage? then 1 else 0
  }

  /** Every reply given and the one owed, if any, has a request of its own. */
  ghost predicate RepliesInv(s: Sess) {
    s.replies + (if s.loop.needStreamState then 1 else 0) <= Requests(Handled(s.trace))
  }

  lemma {:induction false} RequestsSnoc(messages: seq<Control>, m: Control)
    ensures Requests(messages + [m]) == Requests(messages) + if m.StreamStateMessage? then 1 else 0
  {
    assert (messages + [m])[..|messages|] == messages;
  }

  lemma {:induction false} RequestsTurn(trace: seq<Event>, e: Event)
    ensures Requests(Handled(trace + [e])) == Requests(Handled(trace)) + if e.StreamState? then 1 else 0
  {
    HandledSnoc(trace, e);
    if e.Play? {
      RequestsSnoc(Handled(trace), PlayMessage);
    } else if e.StreamState? {
      RequestsSnoc(Handled(trace), StreamStateMessage);
    } else {
      assert Handled(trace) + [] == Handled(trace);
    }
  }

  /** A reply is owed only after a request, and a reply given settles it. */
  lemma {:induction false} ReplySettles(t: Loop, e: Event)
    ensures Step(t, e).needStreamState ==> t.needStreamState || e.StreamState?
    ensures ReplyOf(t, e).StateReply? ==> t.needStreamState && !Step(t, e).needStreamState
    ensures t.running && e.Packet? && Admits(t, e.frame) ==> !Step(t, e).needStreamState
  {
    hide AcceptedCount;
  }

  /** What a step does to the replies and to the trace. */
  lemma {:induction false} RepliesShape(log: seq<Frame>, capacity: nat, key: SessionKey, s: Sess, c: Conn, e: SessEvent)
    requires Midway(s)
    ensures var t := SessStep(log, capacity, key, s, c, e).0;
            && (t.trace == s.trace || (t.trace != [] && t.trace == s.trace + [t.trace[|t.trace| - 1]]))
            && t.replies + (if t.loop.needStreamState then 1 else 0)
               <= s.replies + (if s.loop.needStreamState then 1 else 0)
                  + if t.trace != s.trace && t.trace[|t.trace| - 1].StreamState? then 1 else 0
  {
    hide FatesOf, Number, Step, Begin, ReplyOf;
    if e.Push? && s.pc.Pushing? {
      forall sends ensures !Step(s.pc.before, Packet(s.pc.frame, s.pc.mux, sends)).needStreamState {
        ReplySettles(s.pc.before, Packet(s.pc.frame, s.pc.mux, sends));
      }
    } else if e.HandleControl? && s.control != [] {
      ReplySettles(s.loop, EventOf(s.control[0]));
    } else if e.Leave? {
      ReplySettles(s.loop, e.reason);
    } else if e.Receive? && s.pc.AtSelect? && s.loop.running {
      ReceiveReplies(log, capacity, s, e.mux);
      hide ReceiveNext;
    }
  }

  lemma {:induction false} ReceiveReplies(log: seq<Frame>, capacity: nat, s: Sess, mux: MuxResult)
    requires s.loop.running
    ensures var t := ReceiveNext(log, capacity, s, mux);
            && (t.trace == s.trace || (t.trace != [] && t.trace == s.trace + [t.trace[|t.trace| - 1]] && !t.trace[|t.trace| - 1].StreamState?))
            && t.replies + (if t.loop.needStreamState then 1 else 0) <= s.replies + (if s.loop.needStreamState then 1 else 0)
  {
    hide FatesOf, Number, Step, ReplyOf, Read;
    forall e ensures Step(s.loop, e).needStreamState ==> s.loop.needStreamState || e.StreamState? {
      ReplySettles(s.loop, e);
    }
    forall frame ensures ReplyOf(s.loop, Packet(frame, mux, AllSent)).StateReply?
                         ==> s.loop.needStreamState && !Step(s.loop, Packet(frame, mux, AllSent)).needStreamState {
      ReplySettles(s.loop, Packet(frame, mux, AllSent));
    }
  }

  lemma {:induction false} RepliesTurn(log: seq<Frame>, capacity: nat, key: SessionKey, s: Sess, c: Conn, e: SessEvent)
    requires Midway(s) && RepliesInv(s)
    ensures RepliesInv(SessStep(log, capacity, key, s, c, e).0)
  {
    RepliesShape(log, capacity, key, s, c, e);
    var t := SessStep(log, capacity, key, s, c, e).0;
    if t.trace != s.trace {
      RequestsTurn(s.trace, t.trace[|t.trace| - 1]);
    }
    hide SessStep, Midway, Handled, Requests;
  }

  lemma {:induction false} RepliesStep(capacity: nat, sys: System, e: SysEvent, key: SessionKey)
    requires Known(sys, key) && Midway(sys.sessions[key]) && RepliesInv(sys.sessions[key])
    ensures Known(SysStep(capacity, sys, e), key) && RepliesInv(SysStep(capacity, sys, e).sessions[key])
  {
    if e.OnSession? && e.key == key {
      RepliesTurn(sys.log, capacity, key, sys.sessions[key], sys.conns[key.conn], e.sessEvent);
    }
    hide SessStep, ConnStep, RepliesInv, Midway;
  }

  /** No reply without a request: in any run a session has given at most as many stream-state replies
      as requests were sent to it. */
  lemma {:induction false} RepliesAreAskedFor(capacity: nat, events: seq<SysEvent>, key: SessionKey)
    requires Known(SysRun(capacity, INITIAL, events), key)
    ensures var s := SysRun(capacity, INITIAL, events).sessions[key];
            RepliesInv(s) && s.replies <= Requests(Posted(capacity, INITIAL, events, key))
  {
    RepliesRun(capacity, events, key);
    ControlSinceSubscription(capacity, events, key);
    var s := SysRun(capacity, INITIAL, events).sessions[key];
    RequestsMonotone(Handled(s.trace), s.control);
    hide SysRun, Posted, Handled, Requests;
  }

  lemma {:induction false} RequestsMonotone(a: seq<Control>, b: seq<Control>)
    ensures Requests(a) <= Requests(a + b)
    decreases |b|
  {
    if b == [] {
      assert a + b == a;
    } else {
      RequestsMonotone(a, b[..|b| - 1]);
      assert a + b == (a + b[..|b| - 1]) + [b[|b| - 1]];
      RequestsSnoc(a + b[..|b| - 1], b[|b| - 1]);
    }
  }

  lemma {:induction false} RepliesRun(capacity: nat, events: seq<SysEvent>, key: SessionKey)
    requires Known(SysRun(capacity, INITIAL, events), key)
    ensures RepliesInv(SysRun(capacity, INITIAL, events).sessions[key])
  {
    var front, e := events[..|events| - 1], events[|events| - 1];
    var was := SysRun(capacity, INITIAL, front);
    Invariant(capacity, front);
    if Known(was, key) {
      RepliesRun(capacity, front, key);
      assert Midway(was.sessions[key]) by { InvOf(was, key); hide SysRun, SysInv; }
      RepliesStep(capacity, was, e, key);
      hide SysStep, RepliesInv, Midway, SysInv;
    } else {
      NewlyKnown(capacity, was, e, key);
      hide SysStep, SysInv;
    }
  }
}
