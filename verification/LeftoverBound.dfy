/** The bound on what a torn-down session may still put on the wire is attained: 1024 queued
    messages are not all of it when the connection's worker is in the middle of a batch. */
module LeftoverBound {
  import opened Media
  import opened StreamSession
  import opened Connection
  import opened Pipeline
  import opened PipelineTheorems
  import opened Lifecycle

  const KEY := SessionKey(0, 0)

  function Rtps(n: nat): seq<Kind> {
    seq(n, _ => RtpKind)
  }

  predicate StagePair(s: Sess, c: Conn, pushed: nat, taken: nat) {
    && s.pc.Pushing? && s.stopSent && s.cursor > 0
    && |s.pc.payloads| == MEDIA_QUEUE_LEN + MAX_BATCH + 1 && s.pc.done == pushed
    && c.open && c.worker == (if taken == 0 then Selecting else Batching)
    && |c.inflight| == taken && taken + |c.queue| == pushed
  }

  /** One connection, one session on it pushing a frame of 1089 messages; `pushed` of them went
      into the queue and `taken` of these into the current batch. */
  predicate Stage(sys: System, pushed: nat, taken: nat) {
    sys.sessions.Keys == {KEY} && Known(sys, KEY) && StagePair(sys.sessions[KEY], sys.conns[0], pushed, taken)
  }

  lemma {:induction false} Setup(capacity: nat) returns (events: seq<SysEvent>)
    requires capacity > 0
    ensures Stage(SysRun(capacity, INITIAL, events), 0, 0)
  {
    var n := MEDIA_QUEUE_LEN + MAX_BATCH + 1;
    SysRunSnoc(capacity, INITIAL, [], Open(0));
    events := [] + [Open(0)];
    SysRunSnoc(capacity, INITIAL, events, Subscribe(KEY, 0));
    events := events + [Subscribe(KEY, 0)];
    SysRunSnoc(capacity, INITIAL, events, Camera(Frame(true)));
    events := events + [Camera(Frame(true))];
    var sys := SysRun(capacity, INITIAL, events);
    assert sys == System([Frame(true)], map[0 := NEW_CONN], map[KEY := NewSess(0, 0)]);
    SetupSession(capacity, NewSess(0, 0), NEW_CONN);
    SysRunSnoc(capacity, INITIAL, events, OnSession(KEY, Post(PlayMessage)));
    events := events + [OnSession(KEY, Post(PlayMessage))];
    SysRunSnoc(capacity, INITIAL, events, OnSession(KEY, HandleControl));
    events := events + [OnSession(KEY, HandleControl)];
    SysRunSnoc(capacity, INITIAL, events, OnSession(KEY, Receive(Muxed(Rtps(n)))));
    events := events + [OnSession(KEY, Receive(Muxed(Rtps(n))))];
    SysRunSnoc(capacity, INITIAL, events, OnSession(KEY, SendStop));
    events := events + [OnSession(KEY, SendStop)];
  }

  lemma {:induction false} SetupSession(capacity: nat, s: Sess, c: Conn)
    requires capacity > 0 && s == NewSess(0, 0) && c == NEW_CONN
    ensures var log := [Frame(true)];
            var (q, b) := SessStep(log, capacity, KEY, s, c, Post(PlayMessage));
            var (t, d) := SessStep(log, capacity, KEY, q, b, HandleControl);
            var (u, e) := SessStep(log, capacity, KEY, t, d, Receive(Muxed(Rtps(MEDIA_QUEUE_LEN + MAX_BATCH + 1))));
            var (v, f) := SessStep(log, capacity, KEY, u, e, SendStop);
            StagePair(v, f, 0, 0)
  {
  }

  lemma {:induction false} OnePushed(log: seq<Frame>, capacity: nat, s: Sess, c: Conn, pushed: nat, taken: nat)
    requires StagePair(s, c, pushed, taken) && pushed < taken + MEDIA_QUEUE_LEN <= MAX_BATCH + MEDIA_QUEUE_LEN
    ensures var (t, d) := SessStep(log, capacity, KEY, s, c, Push); StagePair(t, d, pushed + 1, taken)
  {
  }

  /** The session pushes until `goal` messages are in. */
  lemma {:induction false} PushTo(capacity: nat, events: seq<SysEvent>, pushed: nat, taken: nat, goal: nat) returns (events': seq<SysEvent>)
    requires Stage(SysRun(capacity, INITIAL, events), pushed, taken)
    requires pushed <= goal <= taken + MEDIA_QUEUE_LEN && taken <= MAX_BATCH
    ensures Stage(SysRun(capacity, INITIAL, events'), goal, taken)
    decreases goal - pushed
  {
    events' := events;
    if pushed < goal {
      var sys := SysRun(capacity, INITIAL, events);
      OnePushed(sys.log, capacity, sys.sessions[KEY], sys.conns[0], pushed, taken);
      SysRunSnoc(capacity, INITIAL, events, OnSession(KEY, Push));
      events' := PushTo(capacity, events + [OnSession(KEY, Push)], pushed + 1, taken, goal);
    }
  }

  /** The worker takes until its batch is full. */
  lemma {:induction false} TakeAll(capacity: nat, events: seq<SysEvent>, taken: nat) returns (events': seq<SysEvent>)
    requires Stage(SysRun(capacity, INITIAL, events), MAX_BATCH, taken) && taken <= MAX_BATCH
    ensures Stage(SysRun(capacity, INITIAL, events'), MAX_BATCH, MAX_BATCH)
    decreases MAX_BATCH - taken
  {
    events' := events;
    if taken < MAX_BATCH {
      var e := if taken == 0 then Take else TakeMore;
      SysRunSnoc(capacity, INITIAL, events, OnConn(0, e));
      var c := SysRun(capacity, INITIAL, events).conns[0];
      assert |ConnStep(c, e).inflight| == taken + 1;
      events' := TakeAll(capacity, events + [OnConn(0, e)], taken + 1);
    }
  }

  lemma {:induction false} AllMine(sys: System)
    requires SysInv(sys) && sys.sessions.Keys == {KEY} && Known(sys, KEY)
    ensures Leftover(sys.conns[0], KEY) == |sys.conns[0].inflight| + |sys.conns[0].queue|
  {
    var c := sys.conns[0];
    assert ConnInv(c);
    forall m | m in c.inflight + c.queue ensures m.session == KEY {
      assert m in c.accepted;
    }
    ProjectAll(c.inflight + c.queue);
  }

  lemma {:induction false} ProjectAll(a: seq<Message>)
    requires forall m <- a :: m.session == KEY
    ensures Project(a, KEY) == a
  {
    if a == [] {
    } else {
      ProjectAll(a[..|a| - 1]);
    }
  }

  /** The bound is attained, in either state of a worker in the middle of a batch: a run at whose
      end the session is torn down, and a continuation that still puts 1088 of its messages on
      the wire. */
  lemma {:induction false} MoreThanTheQueue(capacity: nat, flushing: bool) returns (events: seq<SysEvent>, more: seq<SysEvent>)
    requires capacity > 0
    ensures var sys := SysRun(capacity, INITIAL, events);
            && Known(sys, KEY) && sys.sessions[KEY].tornDown
            && sys.conns[0].worker == (if flushing then Flushing else Batching)
            && var now := SysRun(capacity, sys, more);
            && Known(now, KEY) && OnWireOf(now, KEY) == OnWireOf(sys, KEY) + MEDIA_QUEUE_LEN + MAX_BATCH
  {
    events := FullBatch(capacity);
    if flushing {
      var sys := SysRun(capacity, INITIAL, events);
      SysRunSnoc(capacity, INITIAL, events, OnConn(0, CloseBatch));
      events := events + [OnConn(0, CloseBatch)];
      assert SysRun(capacity, INITIAL, events) == sys.(conns := sys.conns[0 := ConnStep(sys.conns[0], CloseBatch)]);
    }
    more := TeardownDrains(capacity, events, KEY);
  }

  lemma {:induction false} FullBatch(capacity: nat) returns (events: seq<SysEvent>)
    requires capacity > 0
    ensures Full(SysRun(capacity, INITIAL, events))
  {
    events := Setup(capacity);
    events := PushTo(capacity, events, 0, 0, MAX_BATCH);
    events := TakeAll(capacity, events, 0);
    events := PushTo(capacity, events, MAX_BATCH, MAX_BATCH, MAX_BATCH + MEDIA_QUEUE_LEN);
    Invariant(capacity, events);
    var more := Ends(capacity, SysRun(capacity, INITIAL, events));
    SysRunConcat(capacity, INITIAL, events, more);
    events := events + more;
  }

  /** The session is torn down, and its worker has a full batch and a full queue of its messages. */
  predicate Full(sys: System) {
    && Known(sys, KEY) && sys.sessions[KEY].tornDown
    && sys.conns[0].worker.Batching? && |sys.conns[0].inflight| == MAX_BATCH
    && Leftover(sys.conns[0], KEY) == MEDIA_QUEUE_LEN + MAX_BATCH
  }

  lemma {:induction false} Ends(capacity: nat, sys: System) returns (more: seq<SysEvent>)
    requires SysInv(sys) && Stage(sys, MAX_BATCH + MEDIA_QUEUE_LEN, MAX_BATCH)
    ensures Full(SysRun(capacity, sys, more))
  {
    AllMine(sys);
    LastPush(sys.log, capacity, sys.sessions[KEY], sys.conns[0]);
    hide SysInv, SysRun, SessStep, StagePair;
    more := OwnStep(capacity, sys, [], KEY, Push);
    var now := SysRun(capacity, sys, more);
    WayOut(now.log, capacity, KEY, now.sessions[KEY], now.conns[0]);
    more := OwnStep(capacity, sys, more, KEY, Leave(StopSignal));
    more := OwnStep(capacity, sys, more, KEY, SessEvent.Release);
    more := OwnStep(capacity, sys, more, KEY, TeardownReturns);
  }

  /** The queue is full: the frame is cut short. */
  lemma {:induction false} LastPush(log: seq<Frame>, capacity: nat, s: Sess, c: Conn)
    requires StagePair(s, c, MAX_BATCH + MEDIA_QUEUE_LEN, MAX_BATCH)
    ensures var (t, d) := SessStep(log, capacity, KEY, s, c, Push); t.pc.AtSelect? && t.stopSent && d == c
    ensures c.worker.Batching? && |c.inflight| == MAX_BATCH && |c.inflight| + |c.queue| == MAX_BATCH + MEDIA_QUEUE_LEN
  {
  }
}
