/** Recovery inside the whole pipeline: what "no lag" and "room in the queue" mean there, and that
    they make a session deliver every frame whole from the next keyframe on. */
module PipelineRecovery {
  import opened Media
  import opened StreamSession
  import opened StreamTheorems
  import opened BroadcastRing
  import opened Connection
  import opened Pipeline
  import opened PipelineTheorems

  /** The ring has not overtaken the session when it receives, the muxer works, the queue has room
      for every message at the moment it is pushed, and no Play is handled and the session not ended. */
  predicate SmoothTurn(log: seq<Frame>, capacity: nat, s: Sess, c: Conn, e: SessEvent) {
    match e
    case Receive(mux) => mux.Muxed? && Oldest(|log|, capacity) <= s.cursor
    case Push => c.open && |c.queue| < MEDIA_QUEUE_LEN
    case HandleControl => s.control == [] || s.control[0].StreamStateMessage?
    case Leave(_) => false
    case _ => true
  }

  predicate SmoothStep(capacity: nat, sys: System, key: SessionKey, e: SysEvent) {
    e.OnSession? && e.key == key && key in sys.sessions && key.conn in sys.conns ==>
      SmoothTurn(sys.log, capacity, sys.sessions[key], sys.conns[key.conn], e.sessEvent)
  }

  /** All of a run's steps are smooth for this session; other sessions and clients do as they like. */
  predicate Smooth(capacity: nat, sys: System, events: seq<SysEvent>, key: SessionKey) {
    events == [] ||
      (Smooth(capacity, sys, events[..|events| - 1], key)
       && SmoothStep(capacity, SysRun(capacity, sys, events[..|events| - 1]), key, events[|events| - 1]))
  }

  /** The ring position up to which a session is done with the frames. */
  function Done(s: Sess): int {
    s.cursor - if s.pc.Pushing? then 1 else 0
  }

  predicate Streaming(s: Sess) {
    Base(s).running && Base(s).mode.Playing?
  }

  /** One turn at most, and that one calm, with the next frame of the log if it is a packet. */
  predicate CalmTurn(log: seq<Frame>, s: Sess, t: Sess, turn: seq<Event>) {
    && Streaming(t) && t.first == s.first && t.trace == s.trace + turn && |turn| <= 1
    && (turn == [] ==> Done(t) == Done(s))
    && (turn != [] ==> Calm(turn[0]) && Done(t) == Done(s) + if turn[0].Packet? then 1 else 0)
    && (turn != [] && turn[0].Packet? ==> 0 <= Done(s) < |log| && turn[0].frame == log[Done(s)])
  }

  lemma {:induction false} PushIsCalm(log: seq<Frame>, key: SessionKey, s: Sess, c: Conn) returns (turn: seq<Event>)
    requires s.pc.Pushing? && Midway(s) && Placed(log, s) && Streaming(s) && TrySend(c).Sent?
    ensures CalmTurn(log, s, PushOne(key, s, c).0, turn)
  {
    turn := if s.pc.done + 1 == |s.pc.payloads| then [Packet(s.pc.frame, s.pc.mux, AllSent)] else [];
    assert s.trace + [] == s.trace;
  }

  lemma {:induction false} ReceiveIsCalm(log: seq<Frame>, capacity: nat, s: Sess, mux: MuxResult) returns (turn: seq<Event>)
    requires s.pc.AtSelect? && Placed(log, s) && Streaming(s) && mux.Muxed? && Oldest(|log|, capacity) <= s.cursor
    ensures CalmTurn(log, s, ReceiveNext(log, capacity, s, mux), turn)
  {
    assert s.trace + [] == s.trace;
    if s.cursor == |log| || ReceiveFrame(s, log[s.cursor], mux).pc.Pushing? {
      turn := [];
    } else {
      turn := [Packet(log[s.cursor], mux, AllSent)];
    }
  }

  lemma {:induction false} TurnIsCalm(log: seq<Frame>, capacity: nat, key: SessionKey, s: Sess, c: Conn, e: SessEvent) returns (turn: seq<Event>)
    requires Placed(log, s) && Midway(s) && Streaming(s) && SmoothTurn(log, capacity, s, c, e)
    ensures CalmTurn(log, s, SessStep(log, capacity, key, s, c, e).0, turn)
  {
    assert s.trace + [] == s.trace;
    if s.pc.Pushing? && e.Push? {
      turn := PushIsCalm(log, key, s, c);
    } else if s.pc.AtSelect? && e.Receive? {
      turn := ReceiveIsCalm(log, capacity, s, e.mux);
    } else if s.pc.AtSelect? && e.HandleControl? && s.control != [] {
      turn := [StreamState];
    } else {
      turn := [];
    }
  }

  /** The session's turns since `s0`: calm ones, with the frames of the log in order. */
  ghost predicate CalmSince(log: seq<Frame>, s0: Sess, s: Sess, turns: seq<Event>) {
    && Streaming(s) && s.first == s0.first && s.trace == s0.trace + turns && (forall e <- turns :: Calm(e))
    && s0.cursor <= Done(s) <= |log| && FramesIn(turns) == log[s0.cursor..Done(s)]
  }

  lemma {:induction false} CalmMore(log: seq<Frame>, s0: Sess, s: Sess, t: Sess, turns: seq<Event>, turn: seq<Event>)
    requires CalmSince(log, s0, s, turns) && CalmTurn(log, s, t, turn)
    ensures CalmSince(log, s0, t, turns + turn)
  {
    assert (s0.trace + turns) + turn == s0.trace + (turns + turn);
    if turn == [] {
      assert turns + turn == turns;
    } else {
      assert turn == [turn[0]];
      FramesSnoc(turns, turn[0]);
      assert turn[0].Packet? ==> log[s0.cursor..Done(t)] == log[s0.cursor..Done(s)] + [log[Done(s)]];
    }
  }

  lemma {:induction false} FramesSnoc(turns: seq<Event>, e: Event)
    ensures FramesIn(turns + [e]) == FramesIn(turns) + if e.Packet? then [e.frame] else []
  {
    assert (turns + [e])[..|turns|] == turns;
  }

  lemma {:induction false} CalmGrows(log: seq<Frame>, longer: seq<Frame>, s0: Sess, s: Sess, turns: seq<Event>)
    requires CalmSince(log, s0, s, turns) && log <= longer
    ensures CalmSince(longer, s0, s, turns)
  {
    assert longer[s0.cursor..Done(s)] == log[s0.cursor..Done(s)];
  }

  /** A step of anybody else leaves the session as it is; the log only grows. */
  lemma {:induction false} NotItsStep(capacity: nat, sys: System, e: SysEvent, key: SessionKey)
    requires key in sys.sessions && !(e.OnSession? && e.key == key)
    ensures var next := SysStep(capacity, sys, e);
            key in next.sessions && next.sessions[key] == sys.sessions[key] && sys.log <= next.log
  {
    hide SessStep, ConnStep;
  }

  lemma {:induction false} ItsStep(capacity: nat, sys: System, key: SessionKey, e: SessEvent)
    requires key in sys.sessions && key.conn in sys.conns
    ensures var next := SysStep(capacity, sys, OnSession(key, e));
            && key in next.sessions && next.log == sys.log
            && next.sessions[key] == SessStep(sys.log, capacity, key, sys.sessions[key], sys.conns[key.conn], e).0
  {
    hide SessStep;
  }

  lemma {:induction false} ReadyToTurn(sys: System, key: SessionKey)
    requires SysInv(sys) && key in sys.sessions
    ensures key.conn in sys.conns && Placed(sys.log, sys.sessions[key]) && Midway(sys.sessions[key])
    ensures Simulates(sys.sessions[key]) && sys.sessions[key].cursor <= |sys.log|
  {
    assert SessionOk(sys, key);
    hide SysInv, Progress, Midway, Simulates;
  }

  lemma {:induction false} CalmStep(capacity: nat, sys: System, e: SysEvent, key: SessionKey, s0: Sess, turns: seq<Event>) returns (turns': seq<Event>)
    requires SysInv(sys) && key in sys.sessions && SmoothStep(capacity, sys, key, e)
    requires CalmSince(sys.log, s0, sys.sessions[key], turns)
    ensures var next := SysStep(capacity, sys, e);
            key in next.sessions && CalmSince(next.log, s0, next.sessions[key], turns')
  {
    ReadyToTurn(sys, key);
    var s, c := sys.sessions[key], sys.conns[key.conn];
    assert Streaming(s);
    hide SysInv, SysStep, SessStep, CalmSince, CalmTurn, Placed, Midway, SmoothTurn, Streaming;
    if e.OnSession? && e.key == key {
      var turn := TurnIsCalm(sys.log, capacity, key, s, c, e.sessEvent);
      ItsStep(capacity, sys, key, e.sessEvent);
      CalmMore(sys.log, s0, s, SessStep(sys.log, capacity, key, s, c, e.sessEvent).0, turns, turn);
      turns' := turns + turn;
    } else {
      NotItsStep(capacity, sys, e, key);
      CalmGrows(sys.log, SysStep(capacity, sys, e).log, s0, s, turns);
      turns' := turns;
    }
  }

  lemma {:induction false} CalmAtFirst(log: seq<Frame>, s: Sess)
    requires s.cursor <= |log| && Streaming(s) && s.pc.AtSelect?
    ensures CalmSince(log, s, s, [])
  {
    hide Streaming;
    assert s.trace + [] == s.trace;
    assert log[s.cursor..s.cursor] == [];
  }

  lemma {:induction false} CalmRun(capacity: nat, sys: System, more: seq<SysEvent>, key: SessionKey) returns (turns: seq<Event>)
    requires SysInv(sys) && key in sys.sessions && Streaming(sys.sessions[key]) && sys.sessions[key].pc.AtSelect?
    requires Smooth(capacity, sys, more, key)
    ensures var now := SysRun(capacity, sys, more);
            SysInv(now) && key in now.sessions && CalmSince(now.log, sys.sessions[key], now.sessions[key], turns)
  {
    hide SysInv, SysStep, CalmSince, SmoothStep, Streaming;
    if more == [] {
      ReadyToTurn(sys, key);
      CalmAtFirst(sys.log, sys.sessions[key]);
      turns := [];
    } else {
      var front := more[..|more| - 1];
      turns := CalmRun(capacity, sys, front, key);
      SysStepKeeps(capacity, SysRun(capacity, sys, front), more[|more| - 1]);
      turns := CalmStep(capacity, SysRun(capacity, sys, front), more[|more| - 1], key, sys.sessions[key], turns);
    }
  }

  /** The frames a session is done with since it stood at `from` in the ring. */
  function FramesDone(sys: System, key: SessionKey, from: nat): seq<Frame>
    requires key in sys.sessions
  {
    var to := Done(sys.sessions[key]);
    if from <= to <= |sys.log| then sys.log[from..to] else []
  }

  lemma {:induction false} RecoveredFates(s0: Sess, s: Sess, turns: seq<Event>, gop: nat) returns (r: nat)
    requires Simulates(s0) && Simulates(s) && s0.pc.AtSelect? && Streaming(s0) && gop > 0
    requires s.first == s0.first && s.trace == s0.trace + turns && (forall e <- turns :: Calm(e)) && KeyedEvery(FramesIn(turns), gop)
    ensures s0.fates <= s.fates && |s.fates| == |s0.fates| + |FramesIn(turns)|
    ensures r < gop && ResumesAt(s.fates[|s0.fates|..], r)
  {
    RunConcat(InitLoop(s0.first), s0.trace, turns);
    BoundedRecovery(s0.loop, turns, gop);
    var since := Fates(s0.loop, turns);
    r :| 0 <= r < gop && ResumesAt(since, r);
    assert s.fates == s0.fates + since;
  }

  /** Bounded recovery in the pipeline.  From any reachable state in which a session is playing and
      at its `select!`: if from then on every frame is received before it is overwritten, the
      queue has room for every message when it is pushed, no Play is handled and the session not ended,
      and any `gop` frames in a row hold a keyframe, then fewer than `gop` frames are discarded
      and every later frame is delivered whole. */
  lemma {:induction false} RecoversInPipeline(capacity: nat, events: seq<SysEvent>, more: seq<SysEvent>, key: SessionKey, gop: nat) returns (r: nat)
    requires var sys := SysRun(capacity, INITIAL, events);
             && key in sys.sessions && Streaming(sys.sessions[key]) && sys.sessions[key].pc.AtSelect?
             && Smooth(capacity, sys, more, key) && gop > 0
             && var now := SysRun(capacity, sys, more);
             key in now.sessions ==> KeyedEvery(FramesDone(now, key, sys.sessions[key].cursor), gop)
    ensures var sys := SysRun(capacity, INITIAL, events);
            var now := SysRun(capacity, sys, more);
            && key in now.sessions && Streaming(now.sessions[key])
            && var was := sys.sessions[key].fates;
            var fates := now.sessions[key].fates;
            && was <= fates && |fates| - |was| == |FramesDone(now, key, sys.sessions[key].cursor)|
            && r < gop && ResumesAt(fates[|was|..], r)
  {
    Invariant(capacity, events);
    r := RecoversFrom(capacity, SysRun(capacity, INITIAL, events), more, key, gop);
  }

  lemma {:induction false} RecoversFrom(capacity: nat, sys: System, more: seq<SysEvent>, key: SessionKey, gop: nat) returns (r: nat)
    requires SysInv(sys) && key in sys.sessions && Streaming(sys.sessions[key]) && sys.sessions[key].pc.AtSelect?
    requires Smooth(capacity, sys, more, key) && gop > 0
    requires var now := SysRun(capacity, sys, more);
             key in now.sessions ==> KeyedEvery(FramesDone(now, key, sys.sessions[key].cursor), gop)
    ensures var now := SysRun(capacity, sys, more);
            && key in now.sessions && Streaming(now.sessions[key])
            && var was := sys.sessions[key].fates;
            var fates := now.sessions[key].fates;
            && was <= fates && |fates| - |was| == |FramesDone(now, key, sys.sessions[key].cursor)|
            && r < gop && ResumesAt(fates[|was|..], r)
  {
    var now := SysRun(capacity, sys, more);
    var turns := CalmRun(capacity, sys, more, key);
    ReadyToTurn(sys, key);
    ReadyToTurn(now, key);
    hide SysInv, SysRun, Simulates, KeyedEvery, ResumesAt, Calm;
    r := RecoveredFates(sys.sessions[key], now.sessions[key], turns, gop);
  }
}
