/** What the whole pipeline promises, for every run: decodability end to end, conservation of
    frames, bounded memory, isolation of connections. */
module PipelineTheorems {
  import opened Sequences
  import opened Media
  import opened StreamSession
  import opened StreamTheorems
  import opened BroadcastRing
  import opened Connection
  import opened Pipeline

  // ----- which messages a session sent, and in what order

  /** Message `m` is an accepted message of the frame it names. */
  predicate Told(key: SessionKey, base: nat, fates: seq<Fate>, m: Message) {
    && m.session == key && base <= m.frame < base + |fates|
    && var fate := fates[m.frame - base];
    fate.Offered? && m.index < fate.accepted && m.index < |fate.payloads| && m.payload == fate.payloads[m.index]
  }

  lemma {:induction false} SentOfExactly(key: SessionKey, frame: nat, fate: Fate, m: Message)
    ensures m in SentOf(key, frame, fate) <==> Told(key, frame, [fate], m)
  {
    if Told(key, frame, [fate], m) {
      assert SentOf(key, frame, fate)[m.index] == m;
    }
  }

  lemma {:induction false} ToldSplit(key: SessionKey, base: nat, fates: seq<Fate>, m: Message)
    requires fates != []
    ensures var n := |fates| - 1;
            Told(key, base, fates, m) <==> Told(key, base, fates[..n], m) || Told(key, base + n, [fates[n]], m)
  {
  }

  lemma {:induction false} SentExactly(key: SessionKey, base: nat, fates: seq<Fate>, m: Message)
    ensures m in SentBy(key, base, fates) <==> Told(key, base, fates, m)
  {
    if fates == [] {
    } else {
      var n := |fates| - 1;
      SentExactly(key, base, fates[..n], m);
      SentOfExactly(key, base + n, fates[n], m);
      ToldSplit(key, base, fates, m);
      hide SentOf, Told;
      assert SentBy(key, base, fates) == SentBy(key, base, fates[..n]) + SentOf(key, base + n, fates[n]);
    }
  }

  lemma {:induction false} SentPrefix(key: SessionKey, base: nat, fates: seq<Fate>, i: nat)
    requires i <= |fates|
    ensures SentBy(key, base, fates[..i]) <= SentBy(key, base, fates)
  {
    if i < |fates| {
      SentPrefix(key, base, fates[..|fates| - 1], i);
      assert fates[..|fates| - 1][..i] == fates[..i];
    } else {
      assert fates[..i] == fates;
    }
  }

  lemma {:induction false} ProjectMember(accepted: seq<Message>, key: SessionKey, m: Message)
    ensures m in Project(accepted, key) <==> m in accepted && m.session == key
  {
    if accepted == [] {
    } else {
      ProjectMember(accepted[..|accepted| - 1], key, m);
      assert accepted == accepted[..|accepted| - 1] + [accepted[|accepted| - 1]];
    }
  }

  lemma {:induction false} ProjectAt(accepted: seq<Message>, key: SessionKey, p: nat)
    requires p < |accepted| && accepted[p].session == key
    ensures var n := |Project(accepted[..p], key)|;
            && n < |Project(accepted, key)|
            && Project(accepted, key)[..n] == Project(accepted[..p], key)
            && Project(accepted, key)[n] == accepted[p]
  {
    var last := |accepted| - 1;
    if p < last {
      ProjectAt(accepted[..last], key, p);
      assert accepted[..last][..p] == accepted[..p];
    }
  }

  /** All messages of the frame at `base + h`. */
  ghost predicate AllIn(key: SessionKey, base: nat, fates: seq<Fate>, h: nat, accepted: seq<Message>)
    requires h < |fates| && fates[h].Offered?
  {
    forall j :: 0 <= j < |fates[h].payloads| ==> Message(key, base + h, j, fates[h].payloads[j]) in accepted
  }

  lemma {:induction false} BeyondPrefix<T>(prefix: seq<T>, whole: seq<T>, n: nat)
    requires prefix <= whole && n < |whole| && whole[n] !in prefix
    ensures |prefix| <= n
  {
    assert forall i :: 0 <= i < |prefix| ==> whole[i] in prefix;
  }

  /** A frame delivered whole is accepted in full before any message of a later frame. */
  lemma {:induction false} EarlierFramesFirst(key: SessionKey, base: nat, fates: seq<Fate>, accepted: seq<Message>, p: nat, h: nat)
    requires Project(accepted, key) == SentBy(key, base, fates)
    requires p < |accepted| && accepted[p].session == key
    requires h < |fates| && fates[h].Whole() && base + h < accepted[p].frame
    ensures AllIn(key, base, fates, h, accepted[..p])
  {
    ProjectAt(accepted, key, p);
    var n := |Project(accepted[..p], key)|;
    var early := SentBy(key, base, fates[..h + 1]);
    SentPrefix(key, base, fates, h + 1);
    SentExactly(key, base, fates[..h + 1], accepted[p]);
    BeyondPrefix(early, Project(accepted, key), n);
    forall j | 0 <= j < |fates[h].payloads|
      ensures Message(key, base + h, j, fates[h].payloads[j]) in accepted[..p]
    {
      var m := Message(key, base + h, j, fates[h].payloads[j]);
      SentExactly(key, base, fates[..h + 1], m);
      assert early <= Project(accepted[..p], key);
      ProjectMember(accepted[..p], key, m);
    }
  }

  // ----- end to end

  /** The messages of a connection that are on the wire. */
  function OnWire(sys: System, conn: nat): seq<Message>
    requires conn in sys.conns
  {
    Carried(sys.conns[conn].wire)
  }

  /** The wire carries a prefix of what the queue accepted. */
  lemma {:induction false} WireIsPrefix(sys: System, conn: nat)
    requires SysInv(sys) && conn in sys.conns
    ensures OnWire(sys, conn) <= sys.conns[conn].accepted
  {
    var c := sys.conns[conn];
    assert ConnInv(c);
    assert c.accepted == OnWire(sys, conn) + (c.inflight + c.queue);
  }

  /** What is true of the message at position `p` of a connection's wire: its session exists, it
      is of a frame that session offered, and unless that frame is a keyframe the frame just
      before it was delivered whole and is on the wire before `p`, every message of it. */
  ghost predicate Decodable(sys: System, conn: nat, p: nat)
    requires conn in sys.conns && p < |OnWire(sys, conn)|
  {
    var m := OnWire(sys, conn)[p];
    && m.session in sys.sessions && m.session.conn == conn
    && var s := sys.sessions[m.session];
    && Told(m.session, s.start, Progress(s), m) && m.frame < |sys.log|
    && (!sys.log[m.frame].key ==>
          var i := m.frame - s.start;
          && i > 0 && Progress(s)[i - 1].Whole()
          && AllIn(m.session, s.start, Progress(s), i - 1, OnWire(sys, conn)[..p]))
  }

  lemma {:induction false} MessageTold(sys: System, conn: nat, p: nat)
    requires SysInv(sys) && conn in sys.conns && p < |OnWire(sys, conn)|
    ensures var m := OnWire(sys, conn)[p];
            && p < |sys.conns[conn].accepted| && sys.conns[conn].accepted[p] == m && m.session in sys.sessions && m.session.conn == conn
            && var s := sys.sessions[m.session];
            && Tells(sys.log, m.session, s.start, Progress(s), sys.conns[conn].accepted)
            && Told(m.session, s.start, Progress(s), m)
            && OnWire(sys, conn)[..p] == sys.conns[conn].accepted[..p]
  {
    WireIsPrefix(sys, conn);
    var m := sys.conns[conn].accepted[p];
    assert m in sys.conns[conn].accepted;
    assert SessionOk(sys, m.session);
    var s := sys.sessions[m.session];
    ProjectMember(sys.conns[conn].accepted, m.session, m);
    SentExactly(m.session, s.start, Progress(s), m);
  }

  /** End-to-end decodability.  In every run, whatever the lag, full queues, repeated PLAYs,
      other sessions on the connection and write failures. */
  lemma {:induction false} EndToEnd(capacity: nat, events: seq<SysEvent>, conn: nat, p: nat)
    requires var sys := SysRun(capacity, INITIAL, events); conn in sys.conns && p < |OnWire(sys, conn)|
    ensures Decodable(SysRun(capacity, INITIAL, events), conn, p)
  {
    hide SysInv, SysRun, OnWire, Tells, Told, AllIn, Progress;
    var sys := SysRun(capacity, INITIAL, events);
    Invariant(capacity, events);
    MessageTold(sys, conn, p);
    var m := OnWire(sys, conn)[p];
    var s := sys.sessions[m.session];
    PreviousFirst(sys.log, m.session, s.start, Progress(s), sys.conns[conn].accepted, p);
  }

  /** An accepted message of a non-key frame comes after every message of the frame before it. */
  lemma {:induction false} PreviousFirst(log: seq<Frame>, key: SessionKey, base: nat, fates: seq<Fate>, accepted: seq<Message>, p: nat)
    requires Tells(log, key, base, fates, accepted)
    requires p < |accepted| && Told(key, base, fates, accepted[p])
    ensures var m := accepted[p];
            m.frame < |log| &&
            (!log[m.frame].key ==>
               var i := m.frame - base;
               i > 0 && fates[i - 1].Whole() && AllIn(key, base, fates, i - 1, accepted[..p]))
  {
    var m := accepted[p];
    if !log[m.frame].key {
      EarlierFramesFirst(key, base, fates, accepted, p, m.frame - base - 1);
    }
  }

  /** Following the chain back: frames `g` to `i - 1` are all whole and `g` is a keyframe. */
  lemma {:induction false} KeyframeBehind(log: seq<Frame>, base: nat, fates: seq<Fate>, i: nat) returns (g: nat)
    requires Chained(log, base, fates) && i < |fates| && fates[i].Offered?
    ensures g <= i && log[base + g].key && forall h :: g <= h < i ==> fates[h].Whole()
    decreases i
  {
    g := i;
    if !log[base + i].key {
      g := KeyframeBehind(log, base, fates, i - 1);
    }
  }

  /** Frames `lo` to `hi - 1` are whole, and every message of them is in `accepted`. */
  ghost predicate AllWholeIn(key: SessionKey, base: nat, fates: seq<Fate>, lo: nat, hi: nat, accepted: seq<Message>)
    requires hi <= |fates|
  {
    forall h :: lo <= h < hi ==> fates[h].Whole() && AllIn(key, base, fates, h, accepted)
  }

  /** Frames from `g` on are whole and on the wire before position `p`, every message of them, up
      to the frame of the message at `p`. */
  ghost predicate GapFree(sys: System, conn: nat, p: nat, g: nat)
    requires conn in sys.conns && p < |OnWire(sys, conn)|
  {
    var m := OnWire(sys, conn)[p];
    && m.session in sys.sessions
    && var s := sys.sessions[m.session];
    && s.start <= g <= m.frame < s.start + |Progress(s)|
    && AllWholeIn(m.session, s.start, Progress(s), g - s.start, m.frame - s.start, OnWire(sys, conn)[..p])
  }

  lemma {:induction false} ChainIn(sys: System, conn: nat, p: nat) returns (g: nat)
    requires SysInv(sys) && conn in sys.conns && p < |OnWire(sys, conn)|
    ensures GapFree(sys, conn, p, g) && g < |sys.log| && sys.log[g].key
  {
    MessageTold(sys, conn, p);
    var m := OnWire(sys, conn)[p];
    var s := sys.sessions[m.session];
    g := ChainFrom(sys.log, m.session, s.start, Progress(s), sys.conns[conn].accepted, p);
  }

  lemma {:induction false} ChainFrom(log: seq<Frame>, key: SessionKey, base: nat, fates: seq<Fate>, accepted: seq<Message>, p: nat) returns (g: nat)
    requires Tells(log, key, base, fates, accepted)
    requires p < |accepted| && Told(key, base, fates, accepted[p])
    ensures base <= g <= accepted[p].frame && g < |log| && log[g].key
    ensures AllWholeIn(key, base, fates, g - base, accepted[p].frame - base, accepted[..p])
  {
    var hi := accepted[p].frame - base;
    var lo := KeyframeBehind(log, base, fates, hi);
    g := base + lo;
    WholeFramesFirst(key, base, fates, accepted, p, lo, hi);
  }

  lemma {:induction false} WholeFramesFirst(key: SessionKey, base: nat, fates: seq<Fate>, accepted: seq<Message>, p: nat, lo: nat, hi: nat)
    requires Project(accepted, key) == SentBy(key, base, fates)
    requires p < |accepted| && accepted[p].session == key && accepted[p].frame == base + hi && hi <= |fates|
    requires forall h :: lo <= h < hi ==> fates[h].Whole()
    ensures AllWholeIn(key, base, fates, lo, hi, accepted[..p])
  {
    forall h | lo <= h < hi ensures AllIn(key, base, fates, h, accepted[..p]) {
      EarlierFramesFirst(key, base, fates, accepted, p, h);
    }
  }

  /** Every message on the wire chains back without a gap to a keyframe. */
  lemma {:induction false} ChainsToKeyframe(capacity: nat, events: seq<SysEvent>, conn: nat, p: nat) returns (g: nat)
    requires var sys := SysRun(capacity, INITIAL, events); conn in sys.conns && p < |OnWire(sys, conn)|
    ensures var sys := SysRun(capacity, INITIAL, events);
            GapFree(sys, conn, p, g) && g < |sys.log| && sys.log[g].key
  {
    Invariant(capacity, events);
    g := ChainIn(SysRun(capacity, INITIAL, events), conn, p);
  }

  /** What a client sees, in any run: a prefix of what its queue accepted, in that order; each
      flush 1 to 64 messages or one response; and responses in the order of the requests. */
  lemma {:induction false} WireOrder(capacity: nat, events: seq<SysEvent>, conn: nat)
    requires conn in SysRun(capacity, INITIAL, events).conns
    ensures var sys := SysRun(capacity, INITIAL, events);
            var wire := sys.conns[conn].wire;
            && OnWire(sys, conn) <= sys.conns[conn].accepted
            && (forall i :: 0 <= i < |wire| && wire[i].Batch? ==> 1 <= |wire[i].media| <= MAX_BATCH)
            && (forall i :: 0 <= i < |Responses(wire)| ==> Responses(wire)[i] == i)
  {
    Invariant(capacity, events);
    WireIsPrefix(SysRun(capacity, INITIAL, events), conn);
  }

  /** The wire since a request `r` was in its handler: nothing new, or its response first. */
  predicate AnsweredFirst(was: seq<Burst>, r: nat, c: Conn) {
    || (c.wire == was && (c.worker == Handling(r) || c.worker.Ended?))
    || was + [Response(r)] <= c.wire
  }

  lemma {:induction false} AnsweredFirstStep(capacity: nat, sys: System, e: SysEvent, conn: nat, was: seq<Burst>, r: nat)
    requires conn in sys.conns && AnsweredFirst(was, r, sys.conns[conn])
    ensures var next := SysStep(capacity, sys, e); conn in next.conns && AnsweredFirst(was, r, next.conns[conn])
  {
  }

  lemma {:induction false} AnsweredFirstRun(capacity: nat, sys: System, more: seq<SysEvent>, conn: nat, r: nat)
    requires conn in sys.conns && sys.conns[conn].worker == Handling(r)
    ensures var now := SysRun(capacity, sys, more); conn in now.conns && AnsweredFirst(sys.conns[conn].wire, r, now.conns[conn])
  {
    if more == [] {
    } else {
      AnsweredFirstRun(capacity, sys, more[..|more| - 1], conn, r);
      AnsweredFirstStep(capacity, SysRun(capacity, sys, more[..|more| - 1]), more[|more| - 1], conn, sys.conns[conn].wire, r);
    }
  }

  lemma {:induction false} RunKeeps(capacity: nat, sys: System, events: seq<SysEvent>)
    requires SysInv(sys)
    ensures SysInv(SysRun(capacity, sys, events))
  {
    if events == [] {
    } else {
      RunKeeps(capacity, sys, events[..|events| - 1]);
      SysStepKeeps(capacity, SysRun(capacity, sys, events[..|events| - 1]), events[|events| - 1]);
    }
  }

  /** The response comes before the media it announces.  Take any moment at which a connection is
      inside the handler of request `r`, such as the moment a session handles the Play that a
      PLAY request has just sent.  A message accepted from then on is on the wire, in whatever
      continuation, only behind the response to `r`. */
  lemma {:induction false} ResponseFirst(capacity: nat, events: seq<SysEvent>, more: seq<SysEvent>, conn: nat, r: nat, p: nat)
    requires var sys := SysRun(capacity, INITIAL, events); conn in sys.conns && sys.conns[conn].worker == Handling(r)
    ensures var sys := SysRun(capacity, INITIAL, events);
            var now := SysRun(capacity, sys, more);
            && conn in now.conns
            && var answered := sys.conns[conn].wire + [Response(r)];
            |sys.conns[conn].accepted| <= p < |OnWire(now, conn)| ==> answered <= now.conns[conn].wire && |Carried(answered)| <= p
  {
    var sys := SysRun(capacity, INITIAL, events);
    Invariant(capacity, events);
    WireIsPrefix(sys, conn);
    AnsweredFirstRun(capacity, sys, more, conn, r);
    BurstAppended(sys.conns[conn].wire, Response(r));
  }

  /** A client that never reads holds at most 1024 queued and 64 unflushed messages. */
  lemma {:induction false} MemoryBounded(capacity: nat, events: seq<SysEvent>, conn: nat)
    requires conn in SysRun(capacity, INITIAL, events).conns
    ensures var sys := SysRun(capacity, INITIAL, events);
            |sys.conns[conn].queue| <= MEDIA_QUEUE_LEN && |sys.conns[conn].inflight| <= MAX_BATCH
  {
    Invariant(capacity, events);
  }

  // ----- reading the ring

  /** A session reads the ring as a receiver does: its cursor moves by what `recv` consumed. */
  lemma {:induction false} ReadsTheRing(log: seq<Frame>, capacity: nat, s: Sess, mux: MuxResult)
    requires s.cursor <= |log|
    ensures ReceiveNext(log, capacity, s, mux).cursor == NextCursor(log, capacity, s.cursor)
  {
    hide Step, FatesOf, Begin, Number;
  }

  // ----- conservation of frames

  /** The frames the camera sends in a run. */
  function CameraFrames(events: seq<SysEvent>): seq<Frame> {
    if events == [] then []
    else CameraFrames(events[..|events| - 1]) + match events[|events| - 1] case Camera(frame) => [frame] case _ => []
  }

  /** The log is what the camera has sent, in order. */
  lemma {:induction false} LogIsCamera(capacity: nat, sys: System, events: seq<SysEvent>)
    ensures SysRun(capacity, sys, events).log == sys.log + CameraFrames(events)
  {
    if events == [] {
      assert sys.log + [] == sys.log;
    } else {
      var front, e := events[..|events| - 1], events[|events| - 1];
      LogIsCamera(capacity, sys, front);
      LogStep(capacity, SysRun(capacity, sys, front), e);
      hide SysStep;
      Associative(sys.log, CameraFrames(front), match e case Camera(frame) => [frame] case _ => []);
    }
  }

  lemma {:induction false} LogStep(capacity: nat, sys: System, e: SysEvent)
    ensures SysStep(capacity, sys, e).log == sys.log + match e case Camera(frame) => [frame] case _ => []
  {
    hide SessStep, ConnStep;
    assert sys.log + [] == sys.log;
  }

  lemma {:induction false} OriginTurn(log: seq<Frame>, capacity: nat, key: SessionKey, s: Sess, c: Conn, e: SessEvent)
    ensures var t := SessStep(log, capacity, key, s, c, e).0; t.start == s.start && t.first == s.first
  {
    hide Step, FatesOf, Begin, Number;
  }

  lemma {:induction false} OriginStep(capacity: nat, sys: System, e: SysEvent, key: SessionKey)
    requires key in sys.sessions
    ensures var next := SysStep(capacity, sys, e);
            && key in next.sessions && next.sessions[key].start == sys.sessions[key].start
            && next.sessions[key].first == sys.sessions[key].first
  {
    if e.OnSession? && e.key == key && key.conn in sys.conns {
      OriginTurn(sys.log, capacity, key, sys.sessions[key], sys.conns[key.conn], e.sessEvent);
    }
    hide SessStep, ConnStep;
  }

  /** Where a session started does not change. */
  lemma {:induction false} OriginRun(capacity: nat, sys: System, events: seq<SysEvent>, key: SessionKey)
    requires key in sys.sessions
    ensures var now := SysRun(capacity, sys, events);
            && key in now.sessions && now.sessions[key].start == sys.sessions[key].start
            && now.sessions[key].first == sys.sessions[key].first
  {
    if events == [] {
    } else {
      OriginRun(capacity, sys, events[..|events| - 1], key);
      OriginStep(capacity, SysRun(capacity, sys, events[..|events| - 1]), events[|events| - 1], key);
      hide SysStep;
    }
  }

  /** This Subscribe creates the session. */
  predicate Creates(sys: System, key: SessionKey) {
    key.conn in sys.conns && key !in sys.sessions
  }

  /** A session starts at its subscription: in any run in which it subscribes after `before`, its ring
      position starts behind exactly the frames the camera had sent by then, with nothing read yet. */
  lemma {:induction false} StartsAtSubscription(capacity: nat, before: seq<SysEvent>, key: SessionKey, first: Seq16, after: seq<SysEvent>)
    requires Creates(SysRun(capacity, INITIAL, before), key)
    ensures var begun := SysRun(capacity, INITIAL, before + [Subscribe(key, first)]);
            && key in begun.sessions && begun.sessions[key].cursor == |CameraFrames(before)|
    ensures var sys := SysRun(capacity, INITIAL, before + [Subscribe(key, first)] + after);
            && key in sys.sessions && sys.sessions[key].start == |CameraFrames(before)| && sys.sessions[key].first == first
            && sys.log == CameraFrames(before) + CameraFrames(after)
  {
    var was := SysRun(capacity, INITIAL, before);
    var begun := SysStep(capacity, was, Subscribe(key, first));
    SysRunSnoc(capacity, INITIAL, before, Subscribe(key, first));
    SysRunConcat(capacity, INITIAL, before + [Subscribe(key, first)], after);
    LogIsCamera(capacity, INITIAL, before);
    assert [] + CameraFrames(before) == CameraFrames(before);
    assert key in begun.sessions && begun.sessions[key].start == |was.log| && begun.sessions[key].first == first && begun.log == was.log;
    hide SysRun, SysStep;
    OriginRun(capacity, begun, after, key);
    LogIsCamera(capacity, begun, after);
  }

  /** Frame conservation.  The frames the camera has sent since a session subscribed are: those with
      one of seven fates, the one being pushed if any, and those still unread. */
  lemma {:induction false} FrameConservation(capacity: nat, before: seq<SysEvent>, key: SessionKey, first: Seq16, after: seq<SysEvent>)
    requires Creates(SysRun(capacity, INITIAL, before), key)
    ensures var sys := SysRun(capacity, INITIAL, before + [Subscribe(key, first)] + after);
            && key in sys.sessions
            && var s := sys.sessions[key];
            && s.cursor <= |sys.log|
            && |CameraFrames(after)|
               == HowMany(s.fates, WasSkipped) + HowMany(s.fates, WasDiscarded) + HowMany(s.fates, WasUnmuxed)
                  + HowMany(s.fates, WasSilent) + HowMany(s.fates, WasWhole) + HowMany(s.fates, WasTruncated)
                  + HowMany(s.fates, WasCutOff) + (if s.pc.Pushing? then 1 else 0) + (|sys.log| - s.cursor)
  {
    var events := before + [Subscribe(key, first)] + after;
    StartsAtSubscription(capacity, before, key, first, after);
    Invariant(capacity, events);
    var sys := SysRun(capacity, INITIAL, events);
    hide SysRun;
    CursorAccount(sys, key);
    FatesPartition(sys.sessions[key].fates);
  }

  lemma {:induction false} CursorAccount(sys: System, key: SessionKey)
    requires SysInv(sys) && key in sys.sessions
    ensures var s := sys.sessions[key];
            s.start + |s.fates| + (if s.pc.Pushing? then 1 else 0) == s.cursor <= |sys.log|
  {
    assert SessionOk(sys, key);
    hide SysInv;
  }

  /** And the fates are true: of a frame with fate `f`, the queue of the session's connection
      accepted exactly the first `f.accepted` messages if it was offered, and otherwise none. */
  lemma {:induction false} FatesAreTrue(capacity: nat, events: seq<SysEvent>, key: SessionKey, m: Message)
    requires key in SysRun(capacity, INITIAL, events).sessions && m.session == key
    ensures var sys := SysRun(capacity, INITIAL, events);
            && key.conn in sys.conns
            && (m in sys.conns[key.conn].accepted <==> Told(key, sys.sessions[key].start, Progress(sys.sessions[key]), m))
  {
    var sys := SysRun(capacity, INITIAL, events);
    Invariant(capacity, events);
    assert SessionOk(sys, key);
    ProjectMember(sys.conns[key.conn].accepted, key, m);
    SentExactly(key, sys.sessions[key].start, Progress(sys.sessions[key]), m);
  }

  // ----- sequence gaps, as the connection sees them

  function AcceptedOnly(offers: seq<Offer>): seq<Payload> {
    if offers == [] then []
    else AcceptedOnly(offers[..|offers| - 1]) + if offers[|offers| - 1].accepted then [offers[|offers| - 1].payload] else []
  }

  function PayloadsOf(messages: seq<Message>): seq<Payload> {
    seq(|messages|, i requires 0 <= i < |messages| => messages[i].payload)
  }

  lemma {:induction false} AcceptedOnlyConcat(a: seq<Offer>, b: seq<Offer>)
    ensures AcceptedOnly(a + b) == AcceptedOnly(a) + AcceptedOnly(b)
    decreases |b|
  {
    if b == [] {
      assert a + b == a;
    } else {
      AcceptedOnlyConcat(a, b[..|b| - 1]);
      assert (a + b)[..|a + b| - 1] == a + b[..|b| - 1];
    }
  }

  lemma {:induction false} AcceptedPrefix(payloads: seq<Payload>, accepted: nat, closed: bool, n: nat)
    requires n <= |payloads|
    ensures AcceptedOnly(OffersOf(Offered(payloads, accepted, closed))[..n]) == payloads[..if accepted < n then accepted else n]
  {
    var offers := OffersOf(Offered(payloads, accepted, closed));
    if n > 0 {
      AcceptedPrefix(payloads, accepted, closed, n - 1);
      assert offers[..n][..n - 1] == offers[..n - 1];
    }
  }

  lemma {:induction false} PayloadsConcat(a: seq<Message>, b: seq<Message>)
    ensures PayloadsOf(a + b) == PayloadsOf(a) + PayloadsOf(b)
  {
  }

  lemma {:induction false} FrameOffers(key: SessionKey, frame: nat, fate: Fate)
    ensures PayloadsOf(SentOf(key, frame, fate)) == AcceptedOnly(OffersOf(fate))
  {
    if fate.Offered? {
      var offers := OffersOf(fate);
      AcceptedPrefix(fate.payloads, fate.accepted, fate.closed, |fate.payloads|);
      assert offers[..|fate.payloads|] == offers;
    }
  }

  lemma {:induction false} SentIsOfferedNext(key: SessionKey, base: nat, fates: seq<Fate>, fate: Fate)
    requires PayloadsOf(SentBy(key, base, fates)) == AcceptedOnly(Offers(fates))
    ensures PayloadsOf(SentBy(key, base, fates + [fate])) == AcceptedOnly(Offers(fates + [fate]))
  {
    SentSnoc(key, base, fates, fate);
    OffersSnoc(fates, fate);
    PayloadsConcat(SentBy(key, base, fates), SentOf(key, base + |fates|, fate));
    FrameOffers(key, base + |fates|, fate);
    AcceptedOnlyConcat(Offers(fates), OffersOf(fate));
  }

  /** The messages a session got into its queue are its accepted offers, in order: so what
      `GapAccounting` says of offers it says of the messages the client is sent. */
  lemma {:induction false} SentAreOffers(key: SessionKey, base: nat, fates: seq<Fate>)
    ensures PayloadsOf(SentBy(key, base, fates)) == AcceptedOnly(Offers(fates))
  {
    if fates == [] {
    } else {
      var front, last := fates[..|fates| - 1], fates[|fates| - 1];
      SentAreOffers(key, base, front);
      assert fates == front + [last];
      SentIsOfferedNext(key, base, front, last);
    }
  }

  /** A session's trace, with the frame being pushed, if any, counted as refused from here on. */
  function TraceSoFar(s: Sess): seq<Event> {
    s.trace + if s.pc.Pushing? then [Packet(s.pc.frame, s.pc.mux, FullAt(s.pc.done))] else []
  }

  lemma {:induction false} ProgressIsTrace(s: Sess)
    requires Simulates(s) && Midway(s)
    ensures Progress(s) == Fates(InitLoop(s.first), TraceSoFar(s))
  {
    if s.pc.Pushing? {
      RunSnoc(InitLoop(s.first), s.trace, Packet(s.pc.frame, s.pc.mux, FullAt(s.pc.done)));
    } else {
      assert TraceSoFar(s) == s.trace && Progress(s) == s.fates;
    }
  }

  /** What a connection's queue accepted from a session. */
  function AcceptedFrom(sys: System, key: SessionKey): seq<Payload>
    requires key.conn in sys.conns
  {
    PayloadsOf(Project(sys.conns[key.conn].accepted, key))
  }

  function OffersSoFar(s: Sess): seq<Offer> {
    Offers(Fates(InitLoop(s.first), TraceSoFar(s)))
  }

  lemma {:induction false} AcceptedFromOffers(sys: System, key: SessionKey)
    requires SysInv(sys) && key in sys.sessions
    ensures key.conn in sys.conns && AcceptedFrom(sys, key) == AcceptedOnly(OffersSoFar(sys.sessions[key]))
  {
    assert SessionOk(sys, key);
    var s := sys.sessions[key];
    ProgressIsTrace(s);
    SentAreOffers(key, s.start, Progress(s));
  }

  /** In any state of any run, what a connection accepted from a session is the accepted offers of
      the single-session machine on the session's own trace so far, in order. */
  lemma {:induction false} AcceptedIsOffers(capacity: nat, events: seq<SysEvent>, key: SessionKey)
    requires key in SysRun(capacity, INITIAL, events).sessions
    ensures var sys := SysRun(capacity, INITIAL, events);
            key.conn in sys.conns && AcceptedFrom(sys, key) == AcceptedOnly(OffersSoFar(sys.sessions[key]))
  {
    Invariant(capacity, events);
    hide SysInv, SysRun;
    AcceptedFromOffers(SysRun(capacity, INITIAL, events), key);
  }

  /** `payloads[j]` is the next RTP message after the RTP message `payloads[i]`. */
  ghost predicate NextRtp(payloads: seq<Payload>, i: nat, j: nat) {
    && i < j < |payloads| && payloads[i].Rtp? && payloads[j].Rtp?
    && forall k :: i < k < j ==> !payloads[k].Rtp?
  }

  /** How many of the first `n` offers were accepted. */
  function AcceptedBefore(offers: seq<Offer>, n: nat): nat
    requires n <= |offers|
  {
    |AcceptedOnly(offers[..n])|
  }

  lemma {:induction false} AcceptedGrows(offers: seq<Offer>, m: nat, n: nat)
    requires m <= n <= |offers|
    ensures AcceptedBefore(offers, m) <= AcceptedBefore(offers, n)
  {
    AcceptedOnlyConcat(offers[..m], offers[m..n]);
    assert offers[..n] == offers[..m] + offers[m..n];
  }

  /** Where an accepted offer stands among the accepted ones. */
  lemma {:induction false} AcceptedIndex(offers: seq<Offer>, x: nat)
    requires x < |offers| && offers[x].accepted
    ensures AcceptedBefore(offers, x + 1) == AcceptedBefore(offers, x) + 1 <= |AcceptedOnly(offers)|
    ensures AcceptedOnly(offers)[AcceptedBefore(offers, x)] == offers[x].payload
  {
    assert offers[..x + 1][..x] == offers[..x];
    assert offers == offers[..x + 1] + offers[x + 1..];
    AcceptedOnlyConcat(offers[..x + 1], offers[x + 1..]);
  }

  lemma {:induction false} AcceptedAt(offers: seq<Offer>, i: nat) returns (p: nat)
    requires i < |AcceptedOnly(offers)|
    ensures p < |offers| && offers[p].accepted && AcceptedBefore(offers, p) == i
  {
    var last := |offers| - 1;
    if i < |AcceptedOnly(offers[..last])| {
      p := AcceptedAt(offers[..last], i);
      assert offers[..last][..p] == offers[..p];
    } else {
      p := last;
    }
  }

  lemma {:induction false} NextRtpIsSuccessive(offers: seq<Offer>, i: nat, j: nat) returns (p: nat, q: nat)
    requires NextRtp(AcceptedOnly(offers), i, j)
    ensures Successive(offers, p, q)
    ensures offers[p].payload == AcceptedOnly(offers)[i] && offers[q].payload == AcceptedOnly(offers)[j]
  {
    p := AcceptedAt(offers, i);
    q := AcceptedAt(offers, j);
    AcceptedIndex(offers, p);
    AcceptedIndex(offers, q);
    if q <= p {
      AcceptedGrows(offers, q, p);
    }
    forall x | p < x < q ensures !Delivered(offers, x) {
      NoneBetween(offers, i, j, p, q, x);
    }
  }

  lemma {:induction false} NoneBetween(offers: seq<Offer>, i: nat, j: nat, p: nat, q: nat, x: nat)
    requires NextRtp(AcceptedOnly(offers), i, j) && p < x < q < |offers|
    requires offers[p].accepted && AcceptedBefore(offers, p) == i && AcceptedBefore(offers, q) == j
    ensures !Delivered(offers, x)
  {
    if offers[x].accepted {
      AcceptedIndex(offers, p);
      AcceptedIndex(offers, x);
      AcceptedGrows(offers, p + 1, x);
      AcceptedGrows(offers, x + 1, q);
      assert !AcceptedOnly(offers)[AcceptedBefore(offers, x)].Rtp?;
    }
  }

  /** Offers `p` and `q` are the accepted messages `i` and `j`, RTP both, and the sequence number
      moves from one to the other by one more than the RTP messages refused in between. */
  ghost predicate GapAt(offers: seq<Offer>, accepted: seq<Payload>, i: nat, j: nat, p: nat, q: nat) {
    && i < |accepted| && j < |accepted| && accepted[i].Rtp? && accepted[j].Rtp?
    && Successive(offers, p, q) && offers[p].payload == accepted[i] && offers[q].payload == accepted[j]
    && accepted[j].number == Advance(accepted[i].number, 1 + CutIn(offers[p + 1..q]))
  }

  lemma {:induction false} GapsOf(start: Seq16, events: seq<Event>, offers: seq<Offer>, i: nat, j: nat) returns (p: nat, q: nat)
    requires offers == Offers(Fates(InitLoop(start), events)) && NextRtp(AcceptedOnly(offers), i, j)
    ensures GapAt(offers, AcceptedOnly(offers), i, j, p, q)
  {
    p, q := NextRtpIsSuccessive(offers, i, j);
    GapAccounting(start, events, offers, p, q);
  }

  lemma {:induction false} GapsSoFar(s: Sess, i: nat, j: nat) returns (p: nat, q: nat)
    requires NextRtp(AcceptedOnly(OffersSoFar(s)), i, j)
    ensures GapAt(OffersSoFar(s), AcceptedOnly(OffersSoFar(s)), i, j, p, q)
  {
    p, q := GapsOf(s.first, TraceSoFar(s), OffersSoFar(s), i, j);
  }

  /** Sequence gaps as the connection sees them.  In any state of any run of the whole system,
      between two consecutive RTP messages accepted from a session the numbers skipped are exactly
      the RTP messages of that session its queue refused in between, modulo 2^16. */
  lemma {:induction false} SessionGaps(capacity: nat, events: seq<SysEvent>, key: SessionKey, i: nat, j: nat) returns (p: nat, q: nat)
    requires var sys := SysRun(capacity, INITIAL, events);
             key in sys.sessions && key.conn in sys.conns && NextRtp(AcceptedFrom(sys, key), i, j)
    ensures var sys := SysRun(capacity, INITIAL, events);
            var offers := OffersSoFar(sys.sessions[key]);
            AcceptedFrom(sys, key) == AcceptedOnly(offers) && GapAt(offers, AcceptedFrom(sys, key), i, j, p, q)
  {
    AcceptedIsOffers(capacity, events, key);
    hide SysRun, GapAt, NextRtp, AcceptedFrom, AcceptedOnly, OffersSoFar;
    var sys := SysRun(capacity, INITIAL, events);
    var s := sys.sessions[key];
    p, q := GapsSoFar(s, i, j);
  }

  // ----- isolation

  /** One connection's part of the system: the camera's log, the connection, its sessions. */
  function Restrict(sys: System, conn: nat): System {
    System(sys.log,
           map c | c in sys.conns && c == conn :: sys.conns[c],
           map k | k in sys.sessions && k.conn == conn :: sys.sessions[k])
  }

  predicate Concerns(e: SysEvent, conn: nat) {
    match e
    case Camera(_) => true
    case Open(c) => c == conn
    case Subscribe(key, _) => key.conn == conn
    case OnConn(c, _) => c == conn
    case OnSession(key, _) => key.conn == conn
  }

  function Only(events: seq<SysEvent>, conn: nat): seq<SysEvent> {
    if events == [] then []
    else Only(events[..|events| - 1], conn) + if Concerns(events[|events| - 1], conn) then [events[|events| - 1]] else []
  }

  lemma {:induction false} SessionStepLocal(capacity: nat, sys: System, key: SessionKey, e: SessEvent, conn: nat)
    ensures Restrict(SysStep(capacity, sys, OnSession(key, e)), conn)
            == if key.conn == conn then SysStep(capacity, Restrict(sys, conn), OnSession(key, e)) else Restrict(sys, conn)
  {
    if key in sys.sessions && key.conn in sys.conns {
      var next := SessStep(sys.log, capacity, key, sys.sessions[key], sys.conns[key.conn], e);
      ReplaceLocal(sys, key, next.0, next.1, conn);
    }
  }

  lemma {:induction false} ReplaceLocal(sys: System, key: SessionKey, s: Sess, c: Conn, conn: nat)
    requires key in sys.sessions && key.conn in sys.conns
    ensures Restrict(Replace(sys, key, s, c), conn)
            == if key.conn == conn then Replace(Restrict(sys, conn), key, s, c) else Restrict(sys, conn)
  {
  }

  lemma {:induction false} StepLocal(capacity: nat, sys: System, e: SysEvent, conn: nat)
    ensures Restrict(SysStep(capacity, sys, e), conn)
            == if Concerns(e, conn) then SysStep(capacity, Restrict(sys, conn), e) else Restrict(sys, conn)
  {
    if e.OnSession? {
      SessionStepLocal(capacity, sys, e.key, e.sessEvent, conn);
    }
  }

  lemma {:induction false} SysRunSnoc(capacity: nat, sys: System, events: seq<SysEvent>, e: SysEvent)
    ensures SysRun(capacity, sys, events + [e]) == SysStep(capacity, SysRun(capacity, sys, events), e)
  {
    assert (events + [e])[..|events|] == events;
  }

  lemma {:induction false} SysRunConcat(capacity: nat, sys: System, a: seq<SysEvent>, b: seq<SysEvent>)
    ensures SysRun(capacity, sys, a + b) == SysRun(capacity, SysRun(capacity, sys, a), b)
    decreases |b|
  {
    hide SysStep;
    if b == [] {
      assert a + b == a;
    } else {
      SysRunConcat(capacity, sys, a, b[..|b| - 1]);
      ConcatLast(a, b);
      SysRunSnoc(capacity, sys, a + b[..|b| - 1], b[|b| - 1]);
    }
  }

  /** Isolation.  What happens on one connection, in any run of many, is exactly what happens
      when the events of all other connections are erased: a stalled or failing client changes
      nothing for anybody else. */
  lemma {:induction false} Isolation(capacity: nat, events: seq<SysEvent>, conn: nat)
    ensures Restrict(SysRun(capacity, INITIAL, events), conn) == SysRun(capacity, INITIAL, Only(events, conn))
  {
    if events == [] {
      assert Restrict(INITIAL, conn) == INITIAL;
    } else {
      var before, e := events[..|events| - 1], events[|events| - 1];
      Isolation(capacity, before, conn);
      StepLocal(capacity, SysRun(capacity, INITIAL, before), e, conn);
      if Concerns(e, conn) {
        SysRunSnoc(capacity, INITIAL, Only(before, conn), e);
      } else {
        assert Only(events, conn) == Only(before, conn);
      }
    }
  }
}
