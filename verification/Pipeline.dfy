/** The live pipeline: one camera, any number of sessions, any number of connections.

    A step is one atomic action of one task: the camera broadcasts a frame, a session receives
    a frame or pushes a single message, a connection's worker moves one message or flushes.
    `select!` and the scheduler are free choice: the theorems speak of every list of events.
    An event that is not possible changes nothing. */
module Pipeline {
  import opened Sequences
  import opened Media
  import opened StreamSession
  import opened BroadcastRing
  import opened Connection

  /** Where a session's loop stands: at its `select!`, or inside the loop that pushes the
      messages of one frame, `done` of them sent. */
  datatype Pc = AtSelect | Pushing(frame: Frame, mux: MuxResult, before: Loop, payloads: seq<Payload>, done: nat)

  datatype Sess = Sess(
    loop: Loop,
    pc: Pc,
    start: nat,                // ring position at subscription
    cursor: nat,               // next ring position to read
    control: seq<Control>,     // the control channel, which is unbounded
    stopSent: bool,            // somebody called `Task::stop` on the session's worker
    released: bool,            // the worker's `TaskContext` is dropped
    tornDown: bool,            // a `teardown` call has returned
    replies: nat,              // history: stream-state replies given
    first: Seq16,              // history: the muxer's first sequence number
    fates: seq<Fate>,          // history: fate of each source frame from `start`
    trace: seq<Event>)         // history: completed turns of the loop

  datatype SessEvent =
    | Receive(mux: MuxResult)  // `source_packet_rx.recv()`
    | Push                     // one `try_send`
    | Post(message: Control)   // a `play` call sends a control message
    | HandleControl            // `control_rx.recv()`
    | Leave(reason: Event)     // source broken, control broken, or stop signal
    | Release                  // `run_tcp_interleaved` returns
    | SendStop                 // `teardown` sends the stop message
    | TeardownReturns          // and returns once the hold is released

  datatype System = System(log: seq<Frame>, conns: map<nat, Conn>, sessions: map<SessionKey, Sess>)

  datatype SysEvent =
    | Camera(frame: Frame)
    | Open(conn: nat)
    | Subscribe(key: SessionKey, first: Seq16)
    | OnConn(conn: nat, connEvent: ConnEvent)
    | OnSession(key: SessionKey, sessEvent: SessEvent)

  // ----- steps

  function NewSess(start: nat, first: Seq16): Sess {
    Sess(InitLoop(first), AtSelect, start, start, [], false, false, false, 0, first, [], [])
  }

  /** A turn of the loop is over. */
  function Finish(s: Sess, before: Loop, e: Event): Sess {
    s.(loop := Step(before, e), pc := AtSelect, fates := s.fates + FatesOf(before, e), trace := s.trace + [e])
  }

  function ReceiveFrame(s: Sess, frame: Frame, mux: MuxResult): Sess {
    var t := s.(cursor := s.cursor + 1,
                replies := s.replies + if ReplyOf(s.loop, Packet(frame, mux, AllSent)).StateReply? then 1 else 0);
    if Admits(s.loop, frame) && s.loop.mode.Playing? && mux.Muxed? && mux.kinds != []
    then t.(loop := Begin(s.loop, mux), pc := Pushing(frame, mux, s.loop, Number(s.loop.nextSeq, mux.kinds), 0))
    else Finish(t, s.loop, Packet(frame, mux, AllSent))
  }

  /** `source_packet_rx.recv()`: the next frame, or a report that frames were missed. */
  function ReceiveNext(log: seq<Frame>, capacity: nat, s: Sess, mux: MuxResult): Sess {
    if s.cursor > |log| then s
    else
      match Read(log, capacity, s.cursor)
      case Empty => s
      case Behind(skipped) => Finish(s.(cursor := s.cursor + skipped), s.loop, Lagged(skipped))
      case Got(frame) => ReceiveFrame(s, frame, mux)
  }

  function PushOne(key: SessionKey, s: Sess, c: Conn): (Sess, Conn)
    requires s.pc.Pushing? && s.pc.done < |s.pc.payloads| && s.cursor > 0
  {
    var Pushing(frame, mux, before, payloads, done) := s.pc;
    match TrySend(c)
    case Sent =>
      (if done + 1 == |payloads| then Finish(s, before, Packet(frame, mux, AllSent))
       else s.(pc := s.pc.(done := done + 1)),
       Accept(c, Message(key, s.cursor - 1, done, payloads[done])))
    case Full => (Finish(s, before, Packet(frame, mux, FullAt(done))), c)
    case Closed => (Finish(s, before, Packet(frame, mux, ClosedAt(done))), c)
  }

  function SessStep(log: seq<Frame>, capacity: nat, key: SessionKey, s: Sess, c: Conn, e: SessEvent): (Sess, Conn) {
    if e.Push? then
      if s.pc.Pushing? && s.pc.done < |s.pc.payloads| && s.cursor > 0 then PushOne(key, s, c) else (s, c)
    else if e.Post? then (if s.released then s else s.(control := s.control + [e.message]), c)
    else if e.SendStop? then (s.(stopSent := true), c)
    else if e.TeardownReturns? then (if s.stopSent && s.released then s.(tornDown := true) else s, c)
    else if !s.pc.AtSelect? then (s, c)
    else if e.Release? then (if s.loop.running then s else s.(released := true), c)
    else if !s.loop.running then (s, c)
    else
      match e
      case Receive(mux) => (ReceiveNext(log, capacity, s, mux), c)
      case HandleControl =>
        (if s.control == [] then s else Finish(s.(control := s.control[1..]), s.loop, EventOf(s.control[0])), c)
      case Leave(reason) =>
        (if reason.SourceBroken? || reason.ControlBroken? || (reason.StopSignal? && s.stopSent) then Finish(s, s.loop, reason) else s, c)
      case _ => (s, c)
  }

  const INITIAL := System([], map[], map[])

  function Replace(sys: System, key: SessionKey, s: Sess, c: Conn): System {
    sys.(sessions := sys.sessions[key := s], conns := sys.conns[key.conn := c])
  }

  function SysStep(capacity: nat, sys: System, e: SysEvent): System {
    match e
    case Camera(frame) => sys.(log := sys.log + [frame])
    case Open(conn) => if conn in sys.conns then sys else sys.(conns := sys.conns[conn := NEW_CONN])
    case Subscribe(key, first) =>
      if key.conn in sys.conns && key !in sys.sessions
      then sys.(sessions := sys.sessions[key := NewSess(|sys.log|, first)]) else sys
    case OnConn(conn, connEvent) =>
      if conn in sys.conns then sys.(conns := sys.conns[conn := ConnStep(sys.conns[conn], connEvent)]) else sys
    case OnSession(key, sessEvent) =>
      if key in sys.sessions && key.conn in sys.conns
      then
        var (s, c) := SessStep(sys.log, capacity, key, sys.sessions[key], sys.conns[key.conn], sessEvent);
        Replace(sys, key, s, c)
      else sys
  }

  function SysRun(capacity: nat, sys: System, events: seq<SysEvent>): System {
    if events == [] then sys
    else SysStep(capacity, SysRun(capacity, sys, events[..|events| - 1]), events[|events| - 1])
  }

  // ----- the messages of a session

  function Messages(key: SessionKey, frame: nat, payloads: seq<Payload>): (r: seq<Message>)
    ensures |r| == |payloads|
  {
    seq(|payloads|, i requires 0 <= i < |payloads| => Message(key, frame, i, payloads[i]))
  }

  function SentOf(key: SessionKey, frame: nat, fate: Fate): seq<Message> {
    if !fate.Offered? then []
    else if fate.accepted < |fate.payloads| then Messages(key, frame, fate.payloads)[..fate.accepted]
    else Messages(key, frame, fate.payloads)
  }

  /** What a session got into its queue, told from the fates of the frames from `base` on. */
  function SentBy(key: SessionKey, base: nat, fates: seq<Fate>): seq<Message> {
    if fates == [] then []
    else SentBy(key, base, fates[..|fates| - 1]) + SentOf(key, base + |fates| - 1, fates[|fates| - 1])
  }

  function Project(accepted: seq<Message>, key: SessionKey): seq<Message> {
    if accepted == [] then []
    else Project(accepted[..|accepted| - 1], key) + if accepted[|accepted| - 1].session == key then [accepted[|accepted| - 1]] else []
  }

  /** The fates so far, counting the frame being pushed as far as it got. */
  function Progress(s: Sess): seq<Fate> {
    s.fates + if s.pc.Pushing? then [Offered(s.pc.payloads, s.pc.done, false)] else []
  }

  // ----- what every step keeps

  /** Between turns the loop, and inside a push the loop the turn began with. */
  function Base(s: Sess): Loop {
    if s.pc.Pushing? then s.pc.before else s.loop
  }

  /** The simulation: a session is the single-session machine run on its own trace. */
  ghost predicate Simulates(s: Sess) {
    && Base(s) == Run(InitLoop(s.first), s.trace)
    && s.fates == Fates(InitLoop(s.first), s.trace)
  }

  /** Inside a push, the loop is part-way through one more turn. */
  ghost predicate Midway(s: Sess) {
    match s.pc
    case AtSelect => true
    case Pushing(frame, mux, before, payloads, done) =>
      && before.running && before.mode.Playing? && Admits(before, frame)
      && mux.Muxed? && payloads == Number(before.nextSeq, mux.kinds) && done < |payloads|
      && s.loop == Begin(before, mux)
  }

  /** A frame is offered only if it is a keyframe or directly follows a frame delivered whole. */
  ghost predicate Chained(log: seq<Frame>, base: nat, fates: seq<Fate>) {
    && base + |fates| <= |log|
    && forall i :: 0 <= i < |fates| && fates[i].Offered? && !log[base + i].key ==> i > 0 && fates[i - 1].Whole()
  }

  predicate EndsWhole(fates: seq<Fate>) {
    fates != [] && fates[|fates| - 1].Whole()
  }

  /** The accepted messages of a session are exactly those its fates tell, in order. */
  ghost predicate Tells(log: seq<Frame>, key: SessionKey, base: nat, fates: seq<Fate>, accepted: seq<Message>) {
    && Chained(log, base, fates)
    && Project(accepted, key) == SentBy(key, base, fates)
  }

  ghost predicate Placed(log: seq<Frame>, s: Sess) {
    && s.start + |Progress(s)| == s.cursor <= |log|
    && (s.pc.Pushing? ==> s.pc.frame == log[s.cursor - 1])
    && (s.pc.AtSelect? && s.loop.running && s.loop.mode.Playing? && !s.loop.waitForKeyframe ==> EndsWhole(s.fates))
    && (s.released ==> s.pc.AtSelect? && !s.loop.running)
    && (s.tornDown ==> s.released)
  }

  ghost predicate SessInv(log: seq<Frame>, key: SessionKey, s: Sess, accepted: seq<Message>) {
    && Placed(log, s)
    && Midway(s)
    && Simulates(s)
    && Tells(log, key, s.start, Progress(s), accepted)
  }

  ghost predicate ConnsOk(sys: System) {
    forall c <- sys.conns :: ConnInv(sys.conns[c])
  }

  ghost predicate SessionOk(sys: System, k: SessionKey)
    requires k in sys.sessions
  {
    k.conn in sys.conns && SessInv(sys.log, k, sys.sessions[k], sys.conns[k.conn].accepted)
  }

  ghost predicate SessionsOk(sys: System) {
    forall k <- sys.sessions :: SessionOk(sys, k)
  }

  /** Every accepted message comes from a session of that very connection. */
  ghost predicate OwnersOk(sys: System) {
    forall c <- sys.conns :: forall m <- sys.conns[c].accepted :: m.session in sys.sessions && m.session.conn == c
  }

  ghost predicate SysInv(sys: System) {
    ConnsOk(sys) && SessionsOk(sys) && OwnersOk(sys)
  }

  lemma {:induction false} ProjectSnoc(accepted: seq<Message>, m: Message, key: SessionKey)
    ensures Project(accepted + [m], key) == Project(accepted, key) + if m.session == key then [m] else []
  {
    assert (accepted + [m])[..|accepted|] == accepted;
  }

  lemma {:induction false} ProjectNone(accepted: seq<Message>, key: SessionKey)
    requires forall m <- accepted :: m.session != key
    ensures Project(accepted, key) == []
  {
    if accepted == [] {
    } else {
      ProjectNone(accepted[..|accepted| - 1], key);
    }
  }

  lemma {:induction false} SentSnoc(key: SessionKey, base: nat, fates: seq<Fate>, fate: Fate)
    ensures SentBy(key, base, fates + [fate]) == SentBy(key, base, fates) + SentOf(key, base + |fates|, fate)
  {
    assert (fates + [fate])[..|fates|] == fates;
  }

  lemma {:induction false} SentSkips(key: SessionKey, base: nat, fates: seq<Fate>, n: nat)
    ensures SentBy(key, base, fates + Skips(n)) == SentBy(key, base, fates)
  {
    if n == 0 {
      assert fates + Skips(0) == fates;
    } else {
      SentSkips(key, base, fates, n - 1);
      SentSnoc(key, base, fates + Skips(n - 1), Skipped);
      assert Skips(n) == Skips(n - 1) + [Skipped];
      Associative(fates, Skips(n - 1), [Skipped]);
      hide SentBy, Skips;
    }
  }

  lemma {:induction false} ChainedGrows(log: seq<Frame>, base: nat, fates: seq<Fate>, fate: Fate)
    requires Chained(log, base, fates) && base + |fates| < |log|
    requires fate.Offered? ==> log[base + |fates|].key || EndsWhole(fates)
    ensures Chained(log, base, fates + [fate])
  {
    forall i | 0 <= i < |fates| + 1 && (fates + [fate])[i].Offered? && !log[base + i].key
      ensures i > 0 && (fates + [fate])[i - 1].Whole()
    {
      if i < |fates| {
        assert fates[i].Offered?;
      }
    }
  }

  /** One more fate, of a frame none of whose messages has been accepted yet. */
  lemma {:induction false} TellsNothingNew(log: seq<Frame>, key: SessionKey, base: nat, fates: seq<Fate>, fate: Fate, accepted: seq<Message>)
    requires Tells(log, key, base, fates, accepted) && base + |fates| < |log|
    requires fate.Offered? ==> fate.accepted == 0 && (log[base + |fates|].key || EndsWhole(fates))
    ensures Tells(log, key, base, fates + [fate], accepted)
  {
    ChainedGrows(log, base, fates, fate);
    SentSnoc(key, base, fates, fate);
    assert SentOf(key, base + |fates|, fate) == [];
  }

  /** The chain does not care how far the last frame got. */
  lemma {:induction false} ChainedRewritten(log: seq<Frame>, base: nat, fates: seq<Fate>, was: Fate, now: Fate)
    requires Chained(log, base, fates + [was]) && was.Offered? && now.Offered?
    ensures Chained(log, base, fates + [now])
  {
    forall i | 0 <= i < |fates| + 1 && (fates + [now])[i].Offered? && !log[base + i].key
      ensures i > 0 && (fates + [now])[i - 1].Whole()
    {
      assert (fates + [was])[i].Offered?;
      assert i > 0 && (fates + [was])[i - 1] == (fates + [now])[i - 1];
    }
  }

  /** The last fate may change in ways that do not touch what was accepted. */
  lemma {:induction false} TellsRewritten(log: seq<Frame>, key: SessionKey, base: nat, fates: seq<Fate>, was: Fate, now: Fate, accepted: seq<Message>)
    requires Tells(log, key, base, fates + [was], accepted)
    requires was.Offered? && now.Offered? && was.payloads == now.payloads && was.accepted == now.accepted
    ensures Tells(log, key, base, fates + [now], accepted)
  {
    SentSnoc(key, base, fates, was);
    SentSnoc(key, base, fates, now);
    ChainedRewritten(log, base, fates, was, now);
  }

  lemma {:induction false} SentOneMore(key: SessionKey, frame: nat, payloads: seq<Payload>, done: nat)
    requires done < |payloads|
    ensures SentOf(key, frame, Offered(payloads, done + 1, false))
            == SentOf(key, frame, Offered(payloads, done, false)) + [Message(key, frame, done, payloads[done])]
  {
    var messages := Messages(key, frame, payloads);
    assert messages[..done + 1] == messages[..done] + [messages[done]];
    assert messages[..|messages|] == messages;
  }

  lemma {:induction false} TellsOneMore(log: seq<Frame>, key: SessionKey, base: nat, fates: seq<Fate>, payloads: seq<Payload>, done: nat, accepted: seq<Message>)
    requires done < |payloads|
    requires Tells(log, key, base, fates + [Offered(payloads, done, false)], accepted)
    ensures Tells(log, key, base, fates + [Offered(payloads, done + 1, false)], accepted + [Message(key, base + |fates|, done, payloads[done])])
  {
    var was, now := Offered(payloads, done, false), Offered(payloads, done + 1, false);
    SentSnoc(key, base, fates, was);
    SentSnoc(key, base, fates, now);
    SentOneMore(key, base + |fates|, payloads, done);
    ProjectSnoc(accepted, Message(key, base + |fates|, done, payloads[done]), key);
    ChainedRewritten(log, base, fates, was, now);
  }

  lemma {:induction false} TellsSkips(log: seq<Frame>, key: SessionKey, base: nat, fates: seq<Fate>, n: nat, accepted: seq<Message>)
    requires Tells(log, key, base, fates, accepted) && base + |fates| + n <= |log|
    ensures Tells(log, key, base, fates + Skips(n), accepted)
  {
    SentSkips(key, base, fates, n);
  }

  lemma {:induction false} FinishSimulates(s: Sess, before: Loop, e: Event)
    requires s.fates == Fates(InitLoop(s.first), s.trace) && before == Run(InitLoop(s.first), s.trace)
    ensures Simulates(Finish(s, before, e))
  {
    RunSnoc(InitLoop(s.first), s.trace, e);
  }

  /** A turn that is over at once: the control, exit and lag arms. */
  lemma {:induction false} TurnKeeps(log: seq<Frame>, key: SessionKey, s: Sess, e: Event, accepted: seq<Message>)
    requires SessInv(log, key, s, accepted) && s.pc.AtSelect? && s.loop.running && !e.Packet?
    requires e.Lagged? ==> e.skipped > 0 && s.cursor + e.skipped <= |log|
    ensures SessInv(log, key, Finish(s.(cursor := s.cursor + if e.Lagged? then e.skipped else 0), s.loop, e), accepted)
  {
    var n := if e.Lagged? then e.skipped else 0;
    var t := Finish(s.(cursor := s.cursor + n), s.loop, e);
    assert Progress(s) == s.fates;
    FinishSimulates(s.(cursor := s.cursor + n), s.loop, e);
    TurnMoves(log, s, e);
    TurnTells(log, key, s, e, accepted);
    hide Finish, Placed, Midway, Simulates, Tells;
  }

  lemma {:induction false} TurnMoves(log: seq<Frame>, s: Sess, e: Event)
    requires Placed(log, s) && s.pc.AtSelect? && s.loop.running && !e.Packet?
    requires e.Lagged? ==> e.skipped > 0 && s.cursor + e.skipped <= |log|
    ensures var t := Finish(s.(cursor := s.cursor + if e.Lagged? then e.skipped else 0), s.loop, e);
            Placed(log, t) && Midway(t)
  {
    assert Progress(s) == s.fates;
  }

  lemma {:induction false} TurnTells(log: seq<Frame>, key: SessionKey, s: Sess, e: Event, accepted: seq<Message>)
    requires s.pc.AtSelect? && s.loop.running && !e.Packet? && Tells(log, key, s.start, s.fates, accepted)
    requires e.Lagged? ==> s.start + |s.fates| + e.skipped <= |log|
    ensures var t := Finish(s.(cursor := s.cursor + if e.Lagged? then e.skipped else 0), s.loop, e);
            Tells(log, key, s.start, Progress(t), accepted)
  {
    hide Tells, Step;
    var t := Finish(s.(cursor := s.cursor + if e.Lagged? then e.skipped else 0), s.loop, e);
    if e.Lagged? {
      TellsSkips(log, key, s.start, s.fates, e.skipped, accepted);
      assert Progress(t) == s.fates + Skips(e.skipped);
    } else {
      assert Progress(t) == s.fates;
    }
  }

  lemma {:induction false} ReceiveTells(log: seq<Frame>, key: SessionKey, s: Sess, mux: MuxResult, accepted: seq<Message>)
    requires s.pc.AtSelect? && s.loop.running && s.cursor < |log|
    requires Placed(log, s) && Tells(log, key, s.start, s.fates, accepted)
    ensures var t := ReceiveFrame(s, log[s.cursor], mux);
            Placed(log, t) && Midway(t) && Tells(log, key, s.start, Progress(t), accepted)
  {
    var fate := ReceiveMoves(log, s, mux);
    TellsNothingNew(log, key, s.start, s.fates, fate, accepted);
  }

  /** Receiving a frame gives it a fate, with nothing of it accepted yet. */
  lemma {:induction false} ReceiveMoves(log: seq<Frame>, s: Sess, mux: MuxResult) returns (fate: Fate)
    requires s.pc.AtSelect? && s.loop.running && s.cursor < |log| && Placed(log, s)
    ensures var t := ReceiveFrame(s, log[s.cursor], mux);
            Placed(log, t) && Midway(t) && Progress(t) == s.fates + [fate]
    ensures s.start + |s.fates| == s.cursor
    ensures fate.Offered? ==> fate.accepted == 0 && (log[s.cursor].key || EndsWhole(s.fates))
  {
    var frame := log[s.cursor];
    var t := ReceiveFrame(s, frame, mux);
    assert Progress(s) == s.fates;
    fate := if t.pc.Pushing? then Offered(t.pc.payloads, 0, false) else FatesOf(s.loop, Packet(frame, mux, AllSent))[0];
    assert Progress(t) == s.fates + [fate];
  }

  lemma {:induction false} ReceiveFrameKeeps(log: seq<Frame>, key: SessionKey, s: Sess, mux: MuxResult, accepted: seq<Message>)
    requires SessInv(log, key, s, accepted) && s.pc.AtSelect? && s.loop.running && s.cursor < |log|
    ensures SessInv(log, key, ReceiveFrame(s, log[s.cursor], mux), accepted)
  {
    assert Progress(s) == s.fates;
    ReceiveTells(log, key, s, mux, accepted);
    FinishSimulates(s.(cursor := s.cursor + 1), s.loop, Packet(log[s.cursor], mux, AllSent));
  }

  /** How the queue's answer to one `try_send` would read as the answer to the whole frame. */
  function SendsSoFar(c: Conn, done: nat): Sends {
    match TrySend(c)
    case Sent => AllSent
    case Full => FullAt(done)
    case Closed => ClosedAt(done)
  }

  /** The fate of the frame being pushed, after one more `try_send`. */
  function AfterPush(c: Conn, payloads: seq<Payload>, done: nat): Fate {
    if TrySend(c).Sent? then Offered(payloads, done + 1, false) else Offered(payloads, done, TrySend(c).Closed?)
  }

  lemma {:induction false} PushMoves(log: seq<Frame>, key: SessionKey, s: Sess, c: Conn)
    requires s.pc.Pushing? && Midway(s) && Placed(log, s)
    ensures var t := PushOne(key, s, c).0;
            Placed(log, t) && Midway(t) && t.start == s.start
            && Progress(t) == s.fates + [AfterPush(c, s.pc.payloads, s.pc.done)]
  {
    var Pushing(frame, mux, before, payloads, done) := s.pc;
    var t := PushOne(key, s, c).0;
    assert |Progress(s)| == |s.fates| + 1;
    if t.pc.AtSelect? {
      assert FatesOf(before, Packet(frame, mux, SendsSoFar(c, done))) == [AfterPush(c, payloads, done)];
      assert t.loop == Step(before, Packet(frame, mux, SendsSoFar(c, done)));
    }
  }

  /** One `try_send` tells one more message, or what stopped it. */
  lemma {:induction false} AttemptTells(log: seq<Frame>, key: SessionKey, base: nat, fates: seq<Fate>, payloads: seq<Payload>, done: nat, c: Conn)
    requires done < |payloads|
    requires Tells(log, key, base, fates + [Offered(payloads, done, false)], c.accepted)
    ensures Tells(log, key, base, fates + [AfterPush(c, payloads, done)], Accept(c, Message(key, base + |fates|, done, payloads[done])).accepted)
  {
    hide Tells;
    if TrySend(c).Sent? {
      TellsOneMore(log, key, base, fates, payloads, done, c.accepted);
    } else {
      TellsRewritten(log, key, base, fates, Offered(payloads, done, false), AfterPush(c, payloads, done), c.accepted);
    }
  }

  lemma {:induction false} PushTells(log: seq<Frame>, key: SessionKey, s: Sess, c: Conn)
    requires s.pc.Pushing? && s.pc.done < |s.pc.payloads| && s.start + |s.fates| + 1 == s.cursor
    requires Tells(log, key, s.start, Progress(s), c.accepted)
    ensures Tells(log, key, s.start, s.fates + [AfterPush(c, s.pc.payloads, s.pc.done)], PushOne(key, s, c).1.accepted)
  {
    hide Tells, Finish;
    assert Progress(s) == s.fates + [Offered(s.pc.payloads, s.pc.done, false)];
    AttemptTells(log, key, s.start, s.fates, s.pc.payloads, s.pc.done, c);
  }

  lemma {:induction false} PushKeeps(log: seq<Frame>, key: SessionKey, s: Sess, c: Conn)
    requires SessInv(log, key, s, c.accepted) && s.pc.Pushing?
    ensures SessInv(log, key, PushOne(key, s, c).0, PushOne(key, s, c).1.accepted)
  {
    PushMoves(log, key, s, c);
    assert |Progress(s)| == |s.fates| + 1;
    PushTells(log, key, s, c);
    PushSimulates(key, s, c);
    hide PushOne, Placed, Midway, Simulates, Tells;
  }

  lemma {:induction false} PushSimulates(key: SessionKey, s: Sess, c: Conn)
    requires s.pc.Pushing? && Midway(s) && Simulates(s) && s.cursor > 0
    ensures Simulates(PushOne(key, s, c).0)
  {
    FinishSimulates(s, s.pc.before, Packet(s.pc.frame, s.pc.mux, SendsSoFar(c, s.pc.done)));
    hide Finish, Run, Fates;
  }

  lemma {:induction false} ReceiveKeeps(log: seq<Frame>, capacity: nat, key: SessionKey, s: Sess, mux: MuxResult, accepted: seq<Message>)
    requires SessInv(log, key, s, accepted) && s.pc.AtSelect? && s.loop.running
    ensures SessInv(log, key, ReceiveNext(log, capacity, s, mux), accepted)
  {
    match Read(log, capacity, s.cursor)
    case Empty =>
    case Behind(skipped) => TurnKeeps(log, key, s, Lagged(skipped), accepted);
    case Got(frame) => ReceiveFrameKeeps(log, key, s, mux, accepted);
  }

  /** The arms that end a turn at once: the event of the single-session machine, if any, and the
      session without the message it has received. */
  function TurnOf(s: Sess, e: SessEvent): Event {
    match e
    case HandleControl => if s.control == [] then StopSignal else EventOf(s.control[0])
    case Leave(reason) => reason
    case _ => StopSignal
  }

  function Popped(s: Sess, e: SessEvent): Sess {
    if e.HandleControl? && s.control != [] then s.(control := s.control[1..]) else s
  }

  /** A control message, or an exit. */
  lemma {:induction false} ControlTurn(log: seq<Frame>, capacity: nat, key: SessionKey, s: Sess, c: Conn, e: SessEvent)
    requires s.pc.AtSelect? && s.loop.running && (e.HandleControl? || e.Leave?)
    ensures var (t, d) := SessStep(log, capacity, key, s, c, e);
            d == c && (t == s || (t == Finish(Popped(s, e), s.loop, TurnOf(s, e)) && !TurnOf(s, e).Packet? && !TurnOf(s, e).Lagged?))
  {
    hide Finish, ReceiveNext, PushOne;
  }

  lemma {:induction false} ControlKeeps(log: seq<Frame>, capacity: nat, key: SessionKey, s: Sess, c: Conn, e: SessEvent)
    requires SessInv(log, key, s, c.accepted) && s.pc.AtSelect? && s.loop.running && (e.HandleControl? || e.Leave?)
    ensures SessInv(log, key, SessStep(log, capacity, key, s, c, e).0, c.accepted)
  {
    ControlTurn(log, capacity, key, s, c, e);
    assert (s.released ==> s.pc.AtSelect? && !s.loop.running) && (s.tornDown ==> s.released);
    hide SessInv, SessStep, Finish;
    if !TurnOf(s, e).Packet? && !TurnOf(s, e).Lagged? {
      FlagsKeep(log, key, s, Popped(s, e), c.accepted);
      TurnKeeps(log, key, Popped(s, e), TurnOf(s, e), c.accepted);
      assert Popped(s, e).(cursor := s.cursor + 0) == Popped(s, e);
    }
  }

  /** The two arms with a body of their own. */
  lemma {:induction false} ArmOf(log: seq<Frame>, capacity: nat, key: SessionKey, s: Sess, c: Conn, e: SessEvent)
    requires s.pc.Pushing? ==> s.pc.done < |s.pc.payloads| && s.cursor > 0
    ensures s.pc.Pushing? && e.Push? ==> SessStep(log, capacity, key, s, c, e) == PushOne(key, s, c)
    ensures s.pc.AtSelect? && s.loop.running && e.Receive? ==>
              SessStep(log, capacity, key, s, c, e) == (ReceiveNext(log, capacity, s, e.mux), c)
    ensures s.pc.AtSelect? && s.loop.running && (e.HandleControl? || e.Leave?) ==> SessStep(log, capacity, key, s, c, e).1 == c
  {
    hide Finish, ReceiveNext, PushOne;
  }

  /** All other events set flags or queue a control message at most. */
  lemma {:induction false} FlagsOnly(log: seq<Frame>, capacity: nat, key: SessionKey, s: Sess, c: Conn, e: SessEvent)
    requires !(s.pc.Pushing? && e.Push?) && !(s.pc.AtSelect? && s.loop.running && (e.Receive? || e.HandleControl? || e.Leave?))
    ensures var (t, d) := SessStep(log, capacity, key, s, c, e);
            && d == c && t == s.(control := t.control, stopSent := t.stopSent, released := t.released, tornDown := t.tornDown)
            && (t.released ==> s.released || (s.pc.AtSelect? && !s.loop.running)) && (t.tornDown ==> s.tornDown || s.released)
            && (s.released ==> t.released)
  {
    hide Finish, ReceiveNext, PushOne;
  }

  lemma {:induction false} SessStepKeeps(log: seq<Frame>, capacity: nat, key: SessionKey, s: Sess, c: Conn, e: SessEvent)
    requires SessInv(log, key, s, c.accepted)
    ensures var (t, d) := SessStep(log, capacity, key, s, c, e); SessInv(log, key, t, d.accepted)
  {
    assert s.pc.Pushing? ==> s.pc.done < |s.pc.payloads| && s.cursor > 0;
    assert (s.released ==> s.pc.AtSelect? && !s.loop.running) && (s.tornDown ==> s.released);
    hide SessInv, SessStep, PushOne, ReceiveNext;
    ArmOf(log, capacity, key, s, c, e);
    if s.pc.Pushing? && e.Push? {
      PushKeeps(log, key, s, c);
    } else if s.pc.AtSelect? && s.loop.running && e.Receive? {
      ReceiveKeeps(log, capacity, key, s, e.mux, c.accepted);
    } else if s.pc.AtSelect? && s.loop.running && (e.HandleControl? || e.Leave?) {
      ControlKeeps(log, capacity, key, s, c, e);
    } else {
      FlagsOnly(log, capacity, key, s, c, e);
      FlagsKeep(log, key, s, SessStep(log, capacity, key, s, c, e).0, c.accepted);
    }
  }

  /** Queueing control messages, stopping, releasing and tearing down touch nothing else. */
  lemma {:induction false} FlagsKeep(log: seq<Frame>, key: SessionKey, s: Sess, t: Sess, accepted: seq<Message>)
    requires SessInv(log, key, s, accepted)
    requires t == s.(control := t.control, stopSent := t.stopSent, released := t.released, tornDown := t.tornDown)
    requires (t.released ==> s.pc.AtSelect? && !s.loop.running) && (t.tornDown ==> t.released)
    ensures SessInv(log, key, t, accepted)
  {
    assert Progress(t) == Progress(s) && Base(t) == Base(s);
    hide Tells, Run, Fates;
  }

  /** A session touches its connection only by getting its own messages accepted. */
  lemma {:induction false} SessStepAccepts(log: seq<Frame>, capacity: nat, key: SessionKey, s: Sess, c: Conn, e: SessEvent) returns (more: seq<Message>)
    ensures var d := SessStep(log, capacity, key, s, c, e).1;
            && d.accepted == c.accepted + more && (forall m <- more :: m.session == key)
            && |more| <= 1 && (ConnInv(c) ==> ConnInv(d))
  {
    var d := SessStep(log, capacity, key, s, c, e).1;
    more := [];
    if d != c {
      var m := Message(key, s.cursor - 1, s.pc.done, s.pc.payloads[s.pc.done]);
      assert d == Accept(c, m);
      more := [m];
    }
  }

  lemma {:induction false} LogGrows(log: seq<Frame>, frame: Frame, key: SessionKey, s: Sess, accepted: seq<Message>)
    requires SessInv(log, key, s, accepted)
    ensures SessInv(log + [frame], key, s, accepted)
  {
  }

  lemma {:induction false} OthersAccepted(log: seq<Frame>, key: SessionKey, s: Sess, accepted: seq<Message>, more: seq<Message>)
    requires SessInv(log, key, s, accepted)
    requires |more| <= 1 && forall m <- more :: m.session != key
    ensures SessInv(log, key, s, accepted + more)
  {
    if more == [] {
      assert accepted + more == accepted;
    } else {
      assert more == [more[0]];
      ProjectSnoc(accepted, more[0], key);
    }
  }

  lemma {:induction false} ReplaceKeepsSessions(sys: System, key: SessionKey, s: Sess, c: Conn, more: seq<Message>)
    requires SessionsOk(sys) && key in sys.sessions && key.conn in sys.conns
    requires SessInv(sys.log, key, s, c.accepted)
    requires c.accepted == sys.conns[key.conn].accepted + more && |more| <= 1 && forall m <- more :: m.session == key
    ensures SessionsOk(Replace(sys, key, s, c))
  {
    var next := Replace(sys, key, s, c);
    forall k | k in next.sessions ensures SessionOk(next, k) {
      if k != key {
        assert SessionOk(sys, k);
        if k.conn == key.conn {
          OthersAccepted(sys.log, k, sys.sessions[k], sys.conns[key.conn].accepted, more);
        }
      }
    }
  }

  lemma {:induction false} ReplaceKeepsOwners(sys: System, key: SessionKey, s: Sess, c: Conn, more: seq<Message>)
    requires OwnersOk(sys) && key in sys.sessions && key.conn in sys.conns
    requires c.accepted == sys.conns[key.conn].accepted + more && forall m <- more :: m.session == key
    ensures OwnersOk(Replace(sys, key, s, c))
  {
  }

  lemma {:induction false} ReplaceKeeps(sys: System, key: SessionKey, s: Sess, c: Conn, more: seq<Message>)
    requires SysInv(sys) && key in sys.sessions && key.conn in sys.conns
    requires SessInv(sys.log, key, s, c.accepted) && ConnInv(c)
    requires c.accepted == sys.conns[key.conn].accepted + more && |more| <= 1 && forall m <- more :: m.session == key
    ensures SysInv(Replace(sys, key, s, c))
  {
    ReplaceKeepsSessions(sys, key, s, c, more);
    ReplaceKeepsOwners(sys, key, s, c, more);
  }

  lemma {:induction false} SessionEventKeeps(capacity: nat, sys: System, key: SessionKey, e: SessEvent) returns (s: Sess, c: Conn)
    requires SysInv(sys) && key in sys.sessions && key.conn in sys.conns
    ensures (s, c) == SessStep(sys.log, capacity, key, sys.sessions[key], sys.conns[key.conn], e)
    ensures SysInv(Replace(sys, key, s, c))
  {
    assert SessionOk(sys, key);
    SessStepKeeps(sys.log, capacity, key, sys.sessions[key], sys.conns[key.conn], e);
    var more := SessStepAccepts(sys.log, capacity, key, sys.sessions[key], sys.conns[key.conn], e);
    var next := SessStep(sys.log, capacity, key, sys.sessions[key], sys.conns[key.conn], e);
    s, c := next.0, next.1;
    ReplaceKeeps(sys, key, s, c, more);
  }

  /** A step that leaves the sessions and what their queues accepted alone keeps the invariant. */
  lemma {:induction false} SessionsUntouched(sys: System, next: System)
    requires SysInv(sys) && next.log == sys.log && next.sessions == sys.sessions
    requires forall c <- sys.conns :: c in next.conns && next.conns[c].accepted == sys.conns[c].accepted
    ensures SessionsOk(next)
  {
    forall k | k in next.sessions ensures SessionOk(next, k) {
      assert SessionOk(sys, k);
    }
  }

  lemma {:induction false} ConnEventKeeps(capacity: nat, sys: System, conn: nat, e: ConnEvent)
    requires SysInv(sys) && conn in sys.conns
    ensures SysInv(SysStep(capacity, sys, OnConn(conn, e)))
  {
    hide ConnStep, ConnInv, SessionsOk;
    ConnStepKeeps(sys.conns[conn], e);
    SessionsUntouched(sys, SysStep(capacity, sys, OnConn(conn, e)));
  }

  lemma {:induction false} SubscribeKeeps(capacity: nat, sys: System, key: SessionKey, first: Seq16)
    requires SysInv(sys) && key.conn in sys.conns && key !in sys.sessions
    ensures SysInv(SysStep(capacity, sys, Subscribe(key, first)))
  {
    var next := SysStep(capacity, sys, Subscribe(key, first));
    ProjectNone(sys.conns[key.conn].accepted, key);
    assert Progress(NewSess(|sys.log|, first)) == [];
    forall k | k in next.sessions ensures SessionOk(next, k) {
      if k != key {
        assert SessionOk(sys, k);
      }
    }
  }

  lemma {:induction false} CameraKeeps(capacity: nat, sys: System, frame: Frame)
    requires SysInv(sys)
    ensures SysInv(SysStep(capacity, sys, Camera(frame)))
  {
    var next := SysStep(capacity, sys, Camera(frame));
    forall k | k in next.sessions ensures SessionOk(next, k) {
      assert SessionOk(sys, k);
      LogGrows(sys.log, frame, k, sys.sessions[k], sys.conns[k.conn].accepted);
    }
  }

  lemma {:induction false} OpenKeepsOwners(capacity: nat, sys: System, conn: nat)
    requires OwnersOk(sys)
    ensures OwnersOk(SysStep(capacity, sys, Open(conn)))
  {
  }

  lemma {:induction false} OpenKeeps(capacity: nat, sys: System, conn: nat)
    requires SysInv(sys)
    ensures SysInv(SysStep(capacity, sys, Open(conn)))
  {
    hide ConnInv, SessionsOk, OwnersOk;
    if conn !in sys.conns {
      SessionsUntouched(sys, SysStep(capacity, sys, Open(conn)));
      NewConnKeeps();
      OpenKeepsOwners(capacity, sys, conn);
    }
  }

  lemma {:induction false} NewConnKeeps()
    ensures ConnInv(NEW_CONN)
  {
  }

  lemma {:induction false} SysStepKeeps(capacity: nat, sys: System, e: SysEvent)
    requires SysInv(sys)
    ensures SysInv(SysStep(capacity, sys, e))
  {
    hide SysInv, SessStep, ConnStep;
    match e
    case Camera(frame) =>
      CameraKeeps(capacity, sys, frame);
    case Open(conn) =>
      OpenKeeps(capacity, sys, conn);
    case Subscribe(key, first) =>
      if key.conn in sys.conns && key !in sys.sessions {
        SubscribeKeeps(capacity, sys, key, first);
      }
    case OnConn(conn, connEvent) =>
      if conn in sys.conns {
        ConnEventKeeps(capacity, sys, conn, connEvent);
      }
    case OnSession(key, sessEvent) =>
      if key in sys.sessions && key.conn in sys.conns {
        var _, _ := SessionEventKeeps(capacity, sys, key, sessEvent);
      }
  }

  /** The invariant of every run of the whole system. */
  lemma {:induction false} Invariant(capacity: nat, events: seq<SysEvent>)
    ensures SysInv(SysRun(capacity, INITIAL, events))
  {
    if events == [] {
    } else {
      Invariant(capacity, events[..|events| - 1]);
      SysStepKeeps(capacity, SysRun(capacity, INITIAL, events[..|events| - 1]), events[|events| - 1]);
    }
  }
}
