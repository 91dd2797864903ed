/** The ends of a session's life, inside the whole pipeline: PLAY gets its answer and TEARDOWN
    completes although nobody drains the client's queue, and TEARDOWN is final. */
module Lifecycle {
  import opened Sequences
  import opened Media
  import opened StreamSession
  import opened StreamTheorems
  import opened BroadcastRing
  import opened Connection
  import opened Pipeline
  import opened PipelineTheorems

  // ----- steps a session takes alone

  /** Only this session acts: no frame is sent, no connection's worker runs. */
  predicate Alone(events: seq<SysEvent>, key: SessionKey) {
    forall e <- events :: e.OnSession? && e.key == key
  }

  predicate Known(sys: System, key: SessionKey) {
    key in sys.sessions && key.conn in sys.conns
  }

  /** A state every run reaches, with this session in it. */
  ghost predicate Sound(sys: System, key: SessionKey) {
    SysInv(sys) && Known(sys, key)
  }

  lemma {:induction false} StepKnown(capacity: nat, sys: System, key: SessionKey, e: SessEvent)
    requires Known(sys, key)
    ensures var next := SysStep(capacity, sys, OnSession(key, e));
            && Known(next, key) && next.log == sys.log
            && (next.sessions[key], next.conns[key.conn]) == SessStep(sys.log, capacity, key, sys.sessions[key], sys.conns[key.conn], e)
  {
  }

  lemma {:induction false} StepSound(capacity: nat, sys: System, key: SessionKey, e: SessEvent)
    requires Sound(sys, key)
    ensures var next := SysStep(capacity, sys, OnSession(key, e));
            && Sound(next, key) && next.log == sys.log
            && (next.sessions[key], next.conns[key.conn]) == SessStep(sys.log, capacity, key, sys.sessions[key], sys.conns[key.conn], e)
  {
    SysStepKeeps(capacity, sys, OnSession(key, e));
    StepKnown(capacity, sys, key, e);
  }

  lemma {:induction false} AloneSnoc(events: seq<SysEvent>, key: SessionKey, e: SessEvent)
    requires Alone(events, key)
    ensures Alone(events + [OnSession(key, e)], key)
  {
  }

  /** One step of a session on its own, seen on its own state. */
  lemma {:induction false} OwnStep(capacity: nat, sys: System, events: seq<SysEvent>, key: SessionKey, e: SessEvent) returns (events': seq<SysEvent>)
    requires Sound(SysRun(capacity, sys, events), key) && Alone(events, key)
    ensures events' == events + [OnSession(key, e)] && Alone(events', key)
    ensures var was, now := SysRun(capacity, sys, events), SysRun(capacity, sys, events');
            && Sound(now, key) && now.log == was.log
            && (now.sessions[key], now.conns[key.conn]) == SessStep(was.log, capacity, key, was.sessions[key], was.conns[key.conn], e)
  {
    events' := events + [OnSession(key, e)];
    AloneSnoc(events, key, e);
    SysRunSnoc(capacity, sys, events, OnSession(key, e));
    StepSound(capacity, SysRun(capacity, sys, events), key, e);
  }

  lemma {:induction false} InvOf(sys: System, key: SessionKey)
    requires Sound(sys, key)
    ensures SessInv(sys.log, key, sys.sessions[key], sys.conns[key.conn].accepted) && ConnInv(sys.conns[key.conn])
  {
    assert SessionOk(sys, key);
  }

  function PushesLeft(s: Sess): nat {
    if s.pc.Pushing? && s.pc.done <= |s.pc.payloads| then |s.pc.payloads| - s.pc.done else 0
  }

  /** What pushing a frame leaves alone, and that a running session on an open queue stays running. */
  predicate OnlyPushed(s: Sess, c: Conn, t: Sess, d: Conn) {
    && t.cursor == s.cursor && t.replies == s.replies && t.stopSent == s.stopSent && d.open == c.open
    && t.control == s.control && t.loop.needStreamState == s.loop.needStreamState
    && (c.open && s.loop.running ==> t.loop.running && t.loop.mode == s.loop.mode)
  }

  lemma {:induction false} OnePush(log: seq<Frame>, capacity: nat, key: SessionKey, s: Sess, c: Conn)
    requires s.pc.Pushing? && Midway(s) && s.cursor > 0
    ensures var (t, d) := SessStep(log, capacity, key, s, c, Push);
            OnlyPushed(s, c, t, d) && PushesLeft(t) < PushesLeft(s)
  {
  }

  /** A push never blocks: the messages left in a frame are sent or given up in as many steps,
      whatever the state of the queue. */
  lemma {:induction false} FinishPushing(capacity: nat, sys: System, key: SessionKey) returns (events: seq<SysEvent>)
    requires Sound(sys, key)
    ensures Alone(events, key)
    ensures var now := SysRun(capacity, sys, events);
            && Sound(now, key) && now.log == sys.log && now.sessions[key].pc.AtSelect?
            && OnlyPushed(sys.sessions[key], sys.conns[key.conn], now.sessions[key], now.conns[key.conn])
  {
    events := [];
    ghost var now := sys;
    while now.sessions[key].pc.Pushing?
      invariant Alone(events, key) && now == SysRun(capacity, sys, events)
      invariant Sound(now, key) && now.log == sys.log
      invariant OnlyPushed(sys.sessions[key], sys.conns[key.conn], now.sessions[key], now.conns[key.conn])
      decreases PushesLeft(now.sessions[key])
    {
      InvOf(now, key);
      OnePush(now.log, capacity, key, now.sessions[key], now.conns[key.conn]);
      events := OwnStep(capacity, sys, events, key, Push);
      now := SysRun(capacity, sys, events);
    }
  }

  // ----- PLAY cannot deadlock on its own queue

  /** A stream-state request is on its way: in the control channel, or held by the loop. */
  predicate Requested(s: Sess) {
    StreamStateMessage in s.control || s.loop.needStreamState
  }

  /** A frame that the session would not discard, neither now nor once it has handled what is in its
      control channel. */
  predicate Kept(log: seq<Frame>, s: Sess, f: nat)
    requires f < |log|
  {
    log[f].key || (s.loop.mode.Ready? && PlayMessage !in s.control)
  }

  /** Such a frame, unread and still in the ring. */
  predicate Answerable(sys: System, capacity: nat, key: SessionKey, f: nat)
    requires key in sys.sessions
  {
    && Oldest(|sys.log|, capacity) <= f && sys.sessions[key].cursor <= f < |sys.log|
    && Kept(sys.log, sys.sessions[key], f)
  }

  predicate Waiting(s: Sess, f: nat) {
    s.pc.AtSelect? && s.loop.running && s.loop.needStreamState && s.cursor <= f
  }

  /** Receiving one frame: either the reply is given, or the session is closer to frame `f`. */
  lemma {:induction false} OneReceive(log: seq<Frame>, capacity: nat, key: SessionKey, s: Sess, c: Conn, f: nat, mux: MuxResult)
    requires Waiting(s, f)
    requires Oldest(|log|, capacity) <= f < |log| && (s.loop.mode.Ready? || log[f].key)
    ensures var (t, d) := SessStep(log, capacity, key, s, c, Receive(mux));
            && (t.replies == s.replies + 1 || (t.replies == s.replies && Waiting(t, f) && s.cursor < t.cursor))
            && t.loop.mode == s.loop.mode
  {
  }

  lemma {:induction false} ReceiveUntilReply(capacity: nat, sys: System, key: SessionKey, f: nat, mux: MuxResult) returns (events: seq<SysEvent>)
    requires Sound(sys, key) && Answerable(sys, capacity, key, f) && Waiting(sys.sessions[key], f)
    ensures Alone(events, key)
    ensures var now := SysRun(capacity, sys, events);
            Sound(now, key) && now.sessions[key].replies == sys.sessions[key].replies + 1
  {
    events := [];
    ghost var now := sys;
    while now.sessions[key].replies == sys.sessions[key].replies
      invariant Alone(events, key) && now == SysRun(capacity, sys, events)
      invariant Sound(now, key) && now.log == sys.log
      invariant now.sessions[key].loop.mode == sys.sessions[key].loop.mode
      invariant || now.sessions[key].replies == sys.sessions[key].replies + 1
                || (now.sessions[key].replies == sys.sessions[key].replies && Waiting(now.sessions[key], f))
      decreases if now.sessions[key].replies == sys.sessions[key].replies && now.sessions[key].cursor <= f
                then f - now.sessions[key].cursor + 1 else 0
    {
      OneReceive(now.log, capacity, key, now.sessions[key], now.conns[key.conn], f, mux);
      events := OwnStep(capacity, sys, events, key, Receive(mux));
      now := SysRun(capacity, sys, events);
    }
  }

  /** Handling one control message loses neither the request nor the frame. */
  lemma {:induction false} OneControl(log: seq<Frame>, capacity: nat, key: SessionKey, s: Sess, c: Conn, f: nat)
    requires s.pc.AtSelect? && s.loop.running && s.control != [] && Requested(s) && f < |log| && Kept(log, s, f)
    ensures var (t, d) := SessStep(log, capacity, key, s, c, HandleControl);
            && t.pc.AtSelect? && t.loop.running && t.cursor == s.cursor && t.replies == s.replies
            && Requested(t) && Kept(log, t, f) && t.control == s.control[1..]
  {
    assert s.control == [s.control[0]] + s.control[1..];
  }

  lemma {:induction false} HandleAll(capacity: nat, sys: System, key: SessionKey, f: nat) returns (events: seq<SysEvent>)
    requires Sound(sys, key) && Answerable(sys, capacity, key, f) && Requested(sys.sessions[key])
    requires sys.sessions[key].pc.AtSelect? && sys.sessions[key].loop.running
    ensures Alone(events, key)
    ensures var now := SysRun(capacity, sys, events);
            && Sound(now, key) && Answerable(now, capacity, key, f) && Waiting(now.sessions[key], f)
            && now.sessions[key].replies == sys.sessions[key].replies
  {
    events := [];
    ghost var now := sys;
    while now.sessions[key].control != []
      invariant Alone(events, key) && now == SysRun(capacity, sys, events)
      invariant Sound(now, key) && Answerable(now, capacity, key, f) && Requested(now.sessions[key])
      invariant now.sessions[key].pc.AtSelect? && now.sessions[key].loop.running
      invariant now.sessions[key].replies == sys.sessions[key].replies
      decreases |now.sessions[key].control|
    {
      OneControl(now.log, capacity, key, now.sessions[key], now.conns[key.conn], f);
      events := OwnStep(capacity, sys, events, key, HandleControl);
      now := SysRun(capacity, sys, events);
    }
  }

  /** PLAY cannot deadlock on its own queue.  From any reachable state in which a session is
      running and its connection is blocked inside a handler (so nobody drains its queue), once
      the request is in the control channel, whatever else is there, the session alone, by its
      own steps, gives the reply: it needs one unread frame that is a keyframe, or any unread
      frame while Ready with no Play ahead, and whatever the muxer makes of the frame, even
      failing, the reply is given. */
  lemma {:induction false} PlayAnswered(capacity: nat, events: seq<SysEvent>, key: SessionKey, f: nat, mux: MuxResult) returns (more: seq<SysEvent>)
    requires var sys := SysRun(capacity, INITIAL, events);
             && Known(sys, key) && sys.sessions[key].loop.running && Requested(sys.sessions[key])
             && sys.conns[key.conn].worker.Handling? && Answerable(sys, capacity, key, f)
    ensures Alone(more, key)
    ensures var sys := SysRun(capacity, INITIAL, events);
            var now := SysRun(capacity, sys, more);
            Known(now, key) && now.sessions[key].replies == sys.sessions[key].replies + 1
  {
    var sys := SysRun(capacity, INITIAL, events);
    Invariant(capacity, events);
    InvOf(sys, key);
    hide SysRun;
    more := PlayAnsweredFrom(capacity, sys, key, f, mux);
  }

  lemma {:induction false} PlayAnsweredFrom(capacity: nat, sys: System, key: SessionKey, f: nat, mux: MuxResult) returns (more: seq<SysEvent>)
    requires Sound(sys, key) && Answerable(sys, capacity, key, f) && Requested(sys.sessions[key])
    requires sys.sessions[key].loop.running && sys.conns[key.conn].open
    ensures Alone(more, key)
    ensures var now := SysRun(capacity, sys, more);
            Known(now, key) && now.sessions[key].replies == sys.sessions[key].replies + 1
  {
    hide SysRun, Sound;
    more := FinishPushing(capacity, sys, key);
    var now := SysRun(capacity, sys, more);
    var handled := HandleAll(capacity, now, key, f);
    SysRunConcat(capacity, sys, more, handled);
    now := SysRun(capacity, now, handled);
    var rest := ReceiveUntilReply(capacity, now, key, f, mux);
    SysRunConcat(capacity, sys, more + handled, rest);
    more := more + handled + rest;
  }

  // ----- what ends a session

  /** A session was stopped only because it was asked to, and cut off only by a closed queue. */
  predicate Justified(s: Sess, c: Conn) {
    && (StopSignal in s.trace || s.tornDown ==> s.stopSent)
    && (forall e <- s.trace :: e.Packet? && e.sends.ClosedAt? ==> !c.open)
  }

  lemma {:induction false} JustifiedTurn(log: seq<Frame>, capacity: nat, key: SessionKey, s: Sess, c: Conn, e: SessEvent)
    requires Justified(s, c)
    ensures var (t, d) := SessStep(log, capacity, key, s, c, e); Justified(t, d) && d.open == c.open
  {
    hide Step, FatesOf, Begin, Number;
  }

  lemma {:induction false} JustifiedStep(capacity: nat, sys: System, e: SysEvent, key: SessionKey)
    requires Known(sys, key) && Justified(sys.sessions[key], sys.conns[key.conn])
    ensures var next := SysStep(capacity, sys, e); Known(next, key) && Justified(next.sessions[key], next.conns[key.conn])
  {
    if e.OnSession? && e.key == key {
      JustifiedTurn(sys.log, capacity, key, sys.sessions[key], sys.conns[key.conn], e.sessEvent);
    } else if e.OnSession? && e.key in sys.sessions && e.key.conn in sys.conns {
      KeepsOpen(sys.log, capacity, e.key, sys.sessions[e.key], sys.conns[e.key.conn], e.sessEvent);
    }
    hide SessStep;
  }

  lemma {:induction false} KeepsOpen(log: seq<Frame>, capacity: nat, key: SessionKey, s: Sess, c: Conn, e: SessEvent)
    ensures SessStep(log, capacity, key, s, c, e).1.open == c.open
  {
    hide Step, FatesOf, Begin, Number;
  }

  lemma {:induction false} JustifiedRun(capacity: nat, events: seq<SysEvent>, key: SessionKey)
    requires Known(SysRun(capacity, INITIAL, events), key)
    ensures var sys := SysRun(capacity, INITIAL, events); Justified(sys.sessions[key], sys.conns[key.conn])
  {
    var front, e := events[..|events| - 1], events[|events| - 1];
    var was := SysRun(capacity, INITIAL, front);
    if Known(was, key) {
      JustifiedRun(capacity, front, key);
      JustifiedStep(capacity, was, e, key);
      hide SysStep;
    } else {
      Invariant(capacity, front);
      NewlyKnown(capacity, was, e, key);
      hide SysStep;
    }
  }

  lemma {:induction false} NewlyKnown(capacity: nat, sys: System, e: SysEvent, key: SessionKey)
    requires SysInv(sys) && !Known(sys, key) && Known(SysStep(capacity, sys, e), key)
    ensures var s := SysStep(capacity, sys, e).sessions[key];
            && s.trace == [] && s.control == [] && s.replies == 0 && !s.loop.needStreamState && s.pc.AtSelect?
            && !s.stopSent && !s.tornDown && !s.released
    ensures e.Subscribe?
  {
    assert key in sys.sessions ==> SessionOk(sys, key);
    hide SessStep, ConnStep;
  }

  /** What ends a session, and nothing else does.  In any run, the loop of a session that is at its
      `select!` has ended if and only if one of its turns was fatal: the source or the control channel
      broke, the muxer failed, it was stopped, which somebody had asked for, or it met a closed queue,
      and then its connection is gone.  Lag, a full queue and the fate of other clients are not among
      them. */
  lemma {:induction false} SessionSurvives(capacity: nat, events: seq<SysEvent>, key: SessionKey)
    requires var sys := SysRun(capacity, INITIAL, events); Known(sys, key) && sys.sessions[key].pc.AtSelect?
    ensures var sys := SysRun(capacity, INITIAL, events);
            var s := sys.sessions[key];
            && (s.loop.running <==> NoneFatal(InitLoop(s.first), s.trace))
            && Justified(s, sys.conns[key.conn])
  {
    var sys := SysRun(capacity, INITIAL, events);
    Invariant(capacity, events);
    JustifiedRun(capacity, events, key);
    hide SysRun, Justified, NoneFatal;
    LoopOf(sys, key);
    SurvivesIff(InitLoop(sys.sessions[key].first), sys.sessions[key].trace);
  }

  lemma {:induction false} LoopOf(sys: System, key: SessionKey)
    requires SysInv(sys) && Known(sys, key) && sys.sessions[key].pc.AtSelect?
    ensures var s := sys.sessions[key]; s.loop == Run(InitLoop(s.first), s.trace)
  {
    assert SessionOk(sys, key);
    hide SysInv, Run, Fates;
  }

  /** At its `select!` a session leaves its loop when the source or the control channel breaks, and on
      the stop signal if and only if it was asked to stop; and it is released only then. */
  lemma {:induction false} LeavesIff(log: seq<Frame>, capacity: nat, key: SessionKey, s: Sess, c: Conn, reason: Event)
    requires s.pc.AtSelect? && s.loop.running && (reason.SourceBroken? || reason.ControlBroken? || reason.StopSignal?)
    ensures var t := SessStep(log, capacity, key, s, c, Leave(reason)).0;
            && (!t.loop.running <==> reason.StopSignal? ==> s.stopSent)
            && (!t.loop.running ==> t.trace == s.trace + [reason])
    ensures SessStep(log, capacity, key, s, c, SessEvent.Release).0 == s
  {
  }

  lemma {:induction false} ClosedPush(log: seq<Frame>, capacity: nat, key: SessionKey, s: Sess, c: Conn)
    requires s.pc.Pushing? && Midway(s) && s.cursor > 0 && !c.open
    ensures var (t, d) := SessStep(log, capacity, key, s, c, Push);
            && !t.loop.running && t.pc.AtSelect? && d == c
            && SessStep(log, capacity, key, t, d, SessEvent.Release).0.released
  {
  }

  /** A session whose client is gone ends: in the middle of pushing a frame, its next message meets the
      closed queue, and the loop is over and its context released. */
  lemma {:induction false} ClosedEndsSession(capacity: nat, events: seq<SysEvent>, key: SessionKey)
    requires var sys := SysRun(capacity, INITIAL, events);
             Known(sys, key) && sys.sessions[key].pc.Pushing? && !sys.conns[key.conn].open
    ensures var sys := SysRun(capacity, INITIAL, events);
            var next := SysStep(capacity, sys, OnSession(key, Push));
            && Known(next, key) && !next.sessions[key].loop.running
            && var now := SysStep(capacity, next, OnSession(key, SessEvent.Release));
            Known(now, key) && now.sessions[key].released
  {
    var sys := SysRun(capacity, INITIAL, events);
    Invariant(capacity, events);
    hide SysRun;
    ClosedEnds(capacity, sys, key);
  }

  lemma {:induction false} ClosedEnds(capacity: nat, sys: System, key: SessionKey)
    requires Sound(sys, key) && sys.sessions[key].pc.Pushing? && !sys.conns[key.conn].open
    ensures var next := SysStep(capacity, sys, OnSession(key, Push));
            && Sound(next, key) && !next.sessions[key].loop.running
            && var now := SysStep(capacity, next, OnSession(key, SessEvent.Release));
            Sound(now, key) && now.sessions[key].released
  {
    InvOf(sys, key);
    assert sys.sessions[key].cursor > 0;
    ClosedPush(sys.log, capacity, key, sys.sessions[key], sys.conns[key.conn]);
    hide SysInv, SessInv, ConnInv, SessStep, SysStep;
    StepSound(capacity, sys, key, Push);
    StepSound(capacity, SysStep(capacity, sys, OnSession(key, Push)), key, SessEvent.Release);
  }

  /** And the client can always go: from any state in which a session is pushing a frame, the end of
      its connection takes the session with it. */
  lemma {:induction false} DisconnectEndsSession(capacity: nat, events: seq<SysEvent>, key: SessionKey) returns (more: seq<SysEvent>)
    requires var sys := SysRun(capacity, INITIAL, events); Known(sys, key) && sys.sessions[key].pc.Pushing?
    ensures var sys := SysRun(capacity, INITIAL, events);
            more == OnConns(key.conn, Ending(sys.conns[key.conn])) + [OnSession(key, Push)] + [OnSession(key, SessEvent.Release)]
    ensures var now := SysRun(capacity, SysRun(capacity, INITIAL, events), more);
            Known(now, key) && !now.conns[key.conn].open && now.sessions[key].released
  {
    var sys := SysRun(capacity, INITIAL, events);
    Invariant(capacity, events);
    var c := sys.conns[key.conn];
    var ends := OnConns(key.conn, Ending(c));
    EndCloses(c);
    ConnAlone(capacity, sys, key.conn, Ending(c));
    RunKeeps(capacity, sys, ends);
    var ended := SysRun(capacity, sys, ends);
    ClosedEnds(capacity, ended, key);
    SysRunSnoc(capacity, sys, ends, OnSession(key, Push));
    SysRunSnoc(capacity, sys, ends + [OnSession(key, Push)], OnSession(key, SessEvent.Release));
    more := ends + [OnSession(key, Push)] + [OnSession(key, SessEvent.Release)];
    hide SysRun, SysStep, SysInv;
    StaysClosed(capacity, ended, key, Push);
    StaysClosed(capacity, SysStep(capacity, ended, OnSession(key, Push)), key, SessEvent.Release);
  }

  lemma {:induction false} StaysClosed(capacity: nat, sys: System, key: SessionKey, e: SessEvent)
    requires Known(sys, key)
    ensures var next := SysStep(capacity, sys, OnSession(key, e));
            Known(next, key) && next.conns[key.conn].open == sys.conns[key.conn].open
  {
    KeepsOpen(sys.log, capacity, key, sys.sessions[key], sys.conns[key.conn], e);
    hide SessStep;
  }

  // ----- TEARDOWN

  /** TEARDOWN completes: once the stop message is sent, the session's own steps suffice for
      `teardown` to return, even if its client's queue is full and stays full. */
  lemma {:induction false} TeardownCompletes(capacity: nat, events: seq<SysEvent>, key: SessionKey) returns (more: seq<SysEvent>)
    requires Known(SysRun(capacity, INITIAL, events), key) && SysRun(capacity, INITIAL, events).sessions[key].stopSent
    ensures Alone(more, key)
    ensures var now := SysRun(capacity, SysRun(capacity, INITIAL, events), more);
            Known(now, key) && now.sessions[key].tornDown
  {
    var sys := SysRun(capacity, INITIAL, events);
    Invariant(capacity, events);
    more := TeardownFrom(capacity, sys, key);
  }

  lemma {:induction false} WayOut(log: seq<Frame>, capacity: nat, key: SessionKey, s: Sess, c: Conn)
    requires s.pc.AtSelect? && s.stopSent
    ensures var (t, d) := SessStep(log, capacity, key, s, c, Leave(StopSignal));
            && t.pc.AtSelect? && t.stopSent && !t.loop.running && d == c
            && var (u, e) := SessStep(log, capacity, key, t, d, SessEvent.Release);
            && u.stopSent && u.released && e == d
            && SessStep(log, capacity, key, u, e, TeardownReturns).0.tornDown
            && SessStep(log, capacity, key, u, e, TeardownReturns).1 == e
  {
  }

  lemma {:induction false} TeardownFrom(capacity: nat, sys: System, key: SessionKey) returns (more: seq<SysEvent>)
    requires Sound(sys, key) && sys.sessions[key].stopSent
    ensures Alone(more, key)
    ensures var now := SysRun(capacity, sys, more); Known(now, key) && now.sessions[key].tornDown
  {
    more := FinishPushing(capacity, sys, key);
    var now := SysRun(capacity, sys, more);
    WayOut(now.log, capacity, key, now.sessions[key], now.conns[key.conn]);
    more := OwnStep(capacity, sys, more, key, Leave(StopSignal));
    more := OwnStep(capacity, sys, more, key, SessEvent.Release);
    more := OwnStep(capacity, sys, more, key, TeardownReturns);
  }

  /** A released session is frozen. */
  predicate Same(s: Sess, t: Sess) {
    t.released && t.start == s.start && t.pc == s.pc == AtSelect && t.fates == s.fates && !t.loop.running
  }

  lemma {:induction false} FrozenStep(capacity: nat, sys: System, e: SysEvent, key: SessionKey)
    requires key in sys.sessions && Same(sys.sessions[key], sys.sessions[key])
    ensures var next := SysStep(capacity, sys, e);
            key in next.sessions && Same(sys.sessions[key], next.sessions[key])
  {
  }

  lemma {:induction false} Frozen(capacity: nat, sys: System, more: seq<SysEvent>, key: SessionKey)
    requires key in sys.sessions && Same(sys.sessions[key], sys.sessions[key])
    ensures var now := SysRun(capacity, sys, more);
            key in now.sessions && Same(sys.sessions[key], now.sessions[key])
  {
    if more == [] {
    } else {
      Frozen(capacity, sys, more[..|more| - 1], key);
      FrozenStep(capacity, SysRun(capacity, sys, more[..|more| - 1]), more[|more| - 1], key);
    }
  }

  /** TEARDOWN is final.  After `teardown` has returned, in any continuation, the queue never
      accepts another message of that session. */
  lemma {:induction false} TeardownFinality(capacity: nat, events: seq<SysEvent>, more: seq<SysEvent>, key: SessionKey)
    requires var sys := SysRun(capacity, INITIAL, events); Known(sys, key) && sys.sessions[key].tornDown
    ensures var sys := SysRun(capacity, INITIAL, events);
            var now := SysRun(capacity, sys, more);
            Known(now, key) && Project(now.conns[key.conn].accepted, key) == Project(sys.conns[key.conn].accepted, key)
  {
    Invariant(capacity, events);
    FinalFrom(capacity, SysRun(capacity, INITIAL, events), more, key);
  }

  lemma {:induction false} FinalFrom(capacity: nat, sys: System, more: seq<SysEvent>, key: SessionKey)
    requires Sound(sys, key) && sys.sessions[key].tornDown
    ensures var now := SysRun(capacity, sys, more);
            && Sound(now, key)
            && Project(now.conns[key.conn].accepted, key) == Project(sys.conns[key.conn].accepted, key)
  {
    InvOf(sys, key);
    Frozen(capacity, sys, more, key);
    RunKeeps(capacity, sys, more);
    var now := SysRun(capacity, sys, more);
    assert SessionOk(now, key);
    InvOf(now, key);
    assert Progress(sys.sessions[key]) == Progress(now.sessions[key]);
  }

  lemma {:induction false} ProjectConcat(a: seq<Message>, b: seq<Message>, key: SessionKey)
    ensures Project(a + b, key) == Project(a, key) + Project(b, key)
    ensures |Project(b, key)| <= |b|
    decreases |b|
  {
    if b == [] {
      assert a + b == a;
    } else {
      ProjectConcat(a, b[..|b| - 1], key);
      assert (a + b)[..|a + b| - 1] == a + b[..|b| - 1];
    }
  }

  /** Accepted messages of a session that are not on the wire yet. */
  function Leftover(c: Conn, key: SessionKey): nat {
    |Project(c.inflight + c.queue, key)|
  }

  /** How many messages of a session can still reach the wire: none once the worker has ended, else
      all that are not there yet. */
  function Due(c: Conn, key: SessionKey): nat {
    if c.worker.Ended? then 0 else Leftover(c, key)
  }

  /** Messages of a session on the wire. */
  function OnWireOf(sys: System, key: SessionKey): nat
    requires key.conn in sys.conns
  {
    |Project(OnWire(sys, key.conn), key)|
  }

  /** What may still reach the wire after TEARDOWN, in any continuation: at most the messages due.
      They are at most 1024 when the worker is at its `select!` or inside a handler (as when it
      is itself handling the TEARDOWN), and otherwise at most 64 more. */
  lemma {:induction false} TeardownLeftover(capacity: nat, events: seq<SysEvent>, more: seq<SysEvent>, key: SessionKey)
    requires var sys := SysRun(capacity, INITIAL, events); Known(sys, key) && sys.sessions[key].tornDown
    ensures var sys := SysRun(capacity, INITIAL, events);
            var now := SysRun(capacity, sys, more);
            var c := sys.conns[key.conn];
            && Known(now, key)
            && OnWireOf(now, key) <= OnWireOf(sys, key) + Due(c, key)
            && Due(c, key) <= MEDIA_QUEUE_LEN + MAX_BATCH
            && (Due(c, key) > MEDIA_QUEUE_LEN ==> c.worker.Batching? || c.worker.Flushing?)
  {
    var sys := SysRun(capacity, INITIAL, events);
    Invariant(capacity, events);
    LeftoverFrom(capacity, sys, more, key);
    InvOf(sys, key);
    LeftoverSize(sys.conns[key.conn], key);
  }

  lemma {:induction false} LeftoverFrom(capacity: nat, sys: System, more: seq<SysEvent>, key: SessionKey)
    requires Sound(sys, key) && sys.sessions[key].tornDown
    ensures var now := SysRun(capacity, sys, more);
            Sound(now, key) && OnWireOf(now, key) <= OnWireOf(sys, key) + Due(sys.conns[key.conn], key)
  {
    var now := SysRun(capacity, sys, more);
    FinalFrom(capacity, sys, more, key);
    if sys.conns[key.conn].worker.Ended? {
      EndedForever(capacity, sys, more, key.conn);
    } else {
      InvOf(sys, key);
      InvOf(now, key);
      LeftoverBounds(sys.conns[key.conn], now.conns[key.conn], key);
    }
  }

  lemma {:induction false} LeftoverSize(c: Conn, key: SessionKey)
    requires ConnInv(c)
    ensures Due(c, key) <= |c.inflight| + |c.queue| <= MAX_BATCH + MEDIA_QUEUE_LEN
    ensures c.worker.Selecting? || c.worker.Handling? ==> Due(c, key) <= MEDIA_QUEUE_LEN
  {
    ProjectConcat([], c.inflight + c.queue, key);
  }

  lemma {:induction false} LeftoverBounds(c: Conn, d: Conn, key: SessionKey)
    requires ConnInv(c) && ConnInv(d) && Project(d.accepted, key) == Project(c.accepted, key)
    ensures |Project(Carried(d.wire), key)| <= |Project(Carried(c.wire), key)| + Leftover(c, key)
    ensures Carried(d.wire) == d.accepted ==>
              |Project(Carried(d.wire), key)| == |Project(Carried(c.wire), key)| + Leftover(c, key)
  {
    assert c.accepted == Carried(c.wire) + (c.inflight + c.queue) && d.accepted == Carried(d.wire) + (d.inflight + d.queue);
    ProjectConcat(Carried(c.wire), c.inflight + c.queue, key);
    ProjectConcat(Carried(d.wire), d.inflight + d.queue, key);
  }

  // ----- and exactly that much

  lemma {:induction false} EndedStep(capacity: nat, sys: System, e: SysEvent, conn: nat)
    requires conn in sys.conns && sys.conns[conn].worker.Ended?
    ensures var next := SysStep(capacity, sys, e);
            conn in next.conns && next.conns[conn].worker.Ended? && next.conns[conn].wire == sys.conns[conn].wire
  {
  }

  /** The wire of a connection whose worker has ended never grows again. */
  lemma {:induction false} EndedForever(capacity: nat, sys: System, more: seq<SysEvent>, conn: nat)
    requires conn in sys.conns && sys.conns[conn].worker.Ended?
    ensures var now := SysRun(capacity, sys, more);
            conn in now.conns && now.conns[conn].worker.Ended? && now.conns[conn].wire == sys.conns[conn].wire
  {
    if more == [] {
    } else {
      EndedForever(capacity, sys, more[..|more| - 1], conn);
      EndedStep(capacity, SysRun(capacity, sys, more[..|more| - 1]), more[|more| - 1], conn);
    }
  }

  /** The worker of one connection acts, and nobody else. */
  function OnConns(conn: nat, events: seq<ConnEvent>): (r: seq<SysEvent>)
    ensures |r| == |events|
  {
    seq(|events|, i requires 0 <= i < |events| => OnConn(conn, events[i]))
  }

  lemma {:induction false} ConnAlone(capacity: nat, sys: System, conn: nat, events: seq<ConnEvent>)
    requires conn in sys.conns
    ensures var now := SysRun(capacity, sys, OnConns(conn, events));
            && conn in now.conns && now.conns[conn] == ConnRun(sys.conns[conn], events)
            && now.sessions == sys.sessions && now.log == sys.log
    decreases |events|
  {
    if events == [] {
      assert OnConns(conn, events) == [];
    } else {
      OneConnStep(capacity, sys, conn, events[0]);
      RunOne(capacity, sys, OnConn(conn, events[0]));
      OnConnsSplit(conn, events);
      hide SysRun, SysStep, ConnStep, OnConns;
      var first := [OnConn(conn, events[0])];
      ConnAlone(capacity, SysRun(capacity, sys, first), conn, events[1..]);
      SysRunConcat(capacity, sys, first, OnConns(conn, events[1..]));
    }
  }

  lemma {:induction false} OnConnsSplit(conn: nat, events: seq<ConnEvent>)
    requires events != []
    ensures OnConns(conn, events) == [OnConn(conn, events[0])] + OnConns(conn, events[1..])
  {
  }

  lemma {:induction false} RunOne(capacity: nat, sys: System, e: SysEvent)
    ensures SysRun(capacity, sys, [e]) == SysStep(capacity, sys, e)
  {
    hide SysStep;
    SysRunSnoc(capacity, sys, [], e);
    assert [] + [e] == [e];
  }

  lemma {:induction false} OneConnStep(capacity: nat, sys: System, conn: nat, e: ConnEvent)
    requires conn in sys.conns
    ensures var next := SysStep(capacity, sys, OnConn(conn, e));
            && conn in next.conns && next.conns[conn] == ConnStep(sys.conns[conn], e)
            && next.sessions == sys.sessions && next.log == sys.log
  {
    hide ConnStep, SessStep;
  }

  /** Every message due can get there: a worker whose writes succeed sends exactly that many. */
  lemma {:induction false} TeardownDrains(capacity: nat, events: seq<SysEvent>, key: SessionKey) returns (more: seq<SysEvent>)
    requires var sys := SysRun(capacity, INITIAL, events); Known(sys, key) && sys.sessions[key].tornDown
    ensures var sys := SysRun(capacity, INITIAL, events);
            var now := SysRun(capacity, sys, more);
            Known(now, key) && OnWireOf(now, key) == OnWireOf(sys, key) + Due(sys.conns[key.conn], key)
  {
    Invariant(capacity, events);
    more := DrainFrom(capacity, SysRun(capacity, INITIAL, events), key);
  }

  lemma {:induction false} DrainFrom(capacity: nat, sys: System, key: SessionKey) returns (more: seq<SysEvent>)
    requires Sound(sys, key) && sys.sessions[key].tornDown
    ensures var now := SysRun(capacity, sys, more);
            Sound(now, key) && OnWireOf(now, key) == OnWireOf(sys, key) + Due(sys.conns[key.conn], key)
  {
    var c := sys.conns[key.conn];
    InvOf(sys, key);
    if c.worker.Ended? {
      more := [];
    } else {
      var steps := Drains(c);
      more := OnConns(key.conn, steps);
      ConnAlone(capacity, sys, key.conn, steps);
      FinalFrom(capacity, sys, more, key);
      var now := SysRun(capacity, sys, more);
      InvOf(now, key);
      LeftoverBounds(c, now.conns[key.conn], key);
    }
  }

  /** More than 1024 messages of a torn-down session can still reach the wire if and only if its
      connection's worker is in the middle of a batch and more than 1024 are left over. */
  lemma {:induction false} TeardownLeftoverIff(capacity: nat, events: seq<SysEvent>, key: SessionKey)
    requires var sys := SysRun(capacity, INITIAL, events); Known(sys, key) && sys.sessions[key].tornDown
    ensures var sys := SysRun(capacity, INITIAL, events);
            var c := sys.conns[key.conn];
            (exists more :: SendsBeyond(capacity, sys, key, MEDIA_QUEUE_LEN, more))
            <==> (c.worker.Batching? || c.worker.Flushing?) && Leftover(c, key) > MEDIA_QUEUE_LEN
  {
    var sys := SysRun(capacity, INITIAL, events);
    forall more ensures SendsBeyond(capacity, sys, key, MEDIA_QUEUE_LEN, more) ==> Due(sys.conns[key.conn], key) > MEDIA_QUEUE_LEN {
      TeardownLeftover(capacity, events, more, key);
    }
    TeardownLeftover(capacity, events, [], key);
    var more := TeardownDrains(capacity, events, key);
    assert Due(sys.conns[key.conn], key) > MEDIA_QUEUE_LEN ==> SendsBeyond(capacity, sys, key, MEDIA_QUEUE_LEN, more);
  }

  /** The continuation puts more than `n` further messages of the session on the wire. */
  predicate SendsBeyond(capacity: nat, sys: System, key: SessionKey, n: nat, more: seq<SysEvent>)
    requires key.conn in sys.conns
  {
    var now := SysRun(capacity, sys, more);
    Known(now, key) && OnWireOf(now, key) > OnWireOf(sys, key) + n
  }
}
