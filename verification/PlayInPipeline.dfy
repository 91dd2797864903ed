/** PLAY inside the whole pipeline: the first RTP message a client gets after its PLAY comes behind
    the response, and carries the sequence number that the session reported for it. */
module PlayInPipeline {
  import opened Sequences
  import opened Media
  import opened StreamSession
  import opened StreamTheorems
  import opened Connection
  import opened Pipeline
  import opened PipelineTheorems
  import opened PipelineRecovery
  import opened Lifecycle

  // ----- a session's trace only grows

  predicate Continues(s: Sess, t: Sess) {
    s.trace <= t.trace && t.first == s.first
  }

  lemma {:induction false} TurnContinues(log: seq<Frame>, capacity: nat, key: SessionKey, s: Sess, c: Conn, e: SessEvent)
    ensures Continues(s, SessStep(log, capacity, key, s, c, e).0)
  {
    hide Step, FatesOf, Begin, Number;
  }

  lemma {:induction false} RunContinues(capacity: nat, sys: System, more: seq<SysEvent>, key: SessionKey)
    requires Sound(sys, key)
    ensures var now := SysRun(capacity, sys, more); Sound(now, key) && Continues(sys.sessions[key], now.sessions[key])
  {
    if more == [] {
    } else {
      var front, e := more[..|more| - 1], more[|more| - 1];
      var was := SysRun(capacity, sys, front);
      RunContinues(capacity, sys, front, key);
      StepContinues(capacity, was, e, key);
      hide SysStep, Sound;
    }
  }

  lemma {:induction false} StepContinues(capacity: nat, sys: System, e: SysEvent, key: SessionKey)
    requires Sound(sys, key)
    ensures var next := SysStep(capacity, sys, e); Sound(next, key) && Continues(sys.sessions[key], next.sessions[key])
  {
    SysStepKeeps(capacity, sys, e);
    if e.OnSession? && e.key == key {
      StepKnown(capacity, sys, key, e.sessEvent);
      TurnContinues(sys.log, capacity, key, sys.sessions[key], sys.conns[key.conn], e.sessEvent);
    } else {
      NotItsStep(capacity, sys, e, key);
      ReadyToTurn(SysStep(capacity, sys, e), key);
    }
    hide SysStep, SessStep, SysInv;
  }

  // ----- what a session offers from its Play on

  /** The trace of a session that is about to handle a Play, and a later one: its accepted offers are
      the earlier ones and then those of the loop that has handled the Play. */
  lemma {:induction false} OffersFromPlay(first: Seq16, before: seq<Event>, rest: seq<Event>)
    ensures var init := InitLoop(first);
            var played := Step(Run(init, before), Play);
            Offers(Fates(init, before + [Play] + rest)) == Offers(Fates(init, before)) + Offers(Fates(played, rest))
  {
    var init := InitLoop(first);
    RunConcat(init, before + [Play], rest);
    RunSnoc(init, before, Play);
    assert FatesOf(Run(init, before), Play) == [];
    hide Step, FatesOf, Run, Offers;
    assert Fates(init, before) + [] == Fates(init, before);
    OffersConcat(Fates(init, before), Fates(Step(Run(init, before), Play), rest));
  }

  predicate FirstRtpFrom(payloads: seq<Payload>, m: nat, i: nat) {
    m <= i < |payloads| && payloads[i].Rtp? && forall k :: m <= k < i ==> !payloads[k].Rtp?
  }

  /** The first RTP message accepted of numbered offers: every RTP offer before it was refused. */
  lemma {:induction false} FirstAccepted(offers: seq<Offer>, start: Seq16, i: nat) returns (p: nat)
    requires Numbered(offers, start) && FirstRtpFrom(AcceptedOnly(offers), 0, i)
    ensures p < |offers| && offers[p].accepted && offers[p].payload == AcceptedOnly(offers)[i]
    ensures AcceptedOnly(offers)[i].number == Advance(start, CutIn(offers[..p]))
  {
    p := AcceptedAt(offers, i);
    AcceptedIndex(offers, p);
    forall o | o in offers[..p] ensures o.payload.Rtp? ==> !o.accepted {
      var x :| 0 <= x < p && offers[x] == o;
      if o.accepted {
        AcceptedIndex(offers, x);
        AcceptedGrows(offers, x + 1, p);
      }
    }
    CutsAreAll(offers[..p]);
    assert NumberedAt(offers, start, p);
  }

  /** A running loop gave a reply in its turn `a`: since then its muxer's counter has moved by the RTP
      messages muxed. */
  lemma {:induction false} CounterSinceReply(init: Loop, before: seq<Event>, a: nat)
    requires Run(init, before).running && a < |before| && ReplyOf(Run(init, before[..a]), before[a]).StateReply?
    ensures Run(init, before).nextSeq
            == Advance(ReplyOf(Run(init, before[..a]), before[a]).rtpSeq, MuxedIn(Run(init, before[..a + 1]), before[a + 1..]))
  {
    hide Run, Step, Fates, FatesOf, ReplyOf, MuxedIn, MuxedBy, Advance;
    PrefixStep(init, before, a);
    CounterStep(Run(init, before[..a]), before[a]);
    assert before[..a + 1] + before[a + 1..] == before;
    RunConcat(init, before[..a + 1], before[a + 1..]);
    CounterRun(Run(init, before[..a + 1]), before[a + 1..]);
  }

  lemma {:induction false} PlayStarts(s: Loop)
    requires s.running
    ensures var t := Step(s, Play); t.running && t.mode.Playing? && t.nextSeq == s.nextSeq
  {
  }

  lemma {:induction false} NumberedFrom(s: Loop, events: seq<Event>)
    requires s.running && s.mode.Playing?
    ensures Numbered(Offers(Fates(s, events)), s.nextSeq)
  {
    hide Run, Fates, Offers, Numbered, Advance;
    PlayingNumbering(s, events);
  }

  /** The single session's part: the number of the first RTP message accepted after the Play. */
  lemma {:induction false} NumberAfterPlay(s: Loop, rest: seq<Event>, reported: Seq16, muxed: nat, i: nat) returns (p: nat)
    requires s.running && s.nextSeq == Advance(reported, muxed)
    requires FirstRtpFrom(AcceptedOnly(Offers(Fates(Step(s, Play), rest))), 0, i)
    ensures var offers := Offers(Fates(Step(s, Play), rest));
            && p < |offers| && offers[p].accepted && offers[p].payload == AcceptedOnly(offers)[i]
            && AcceptedOnly(offers)[i].number == Advance(reported, muxed + CutIn(offers[..p]))
  {
    hide Step, Run, Fates, Offers, AcceptedOnly, Advance, Numbered, CutIn, FirstRtpFrom;
    PlayStarts(s);
    NumberedFrom(Step(s, Play), rest);
    p := FirstAccepted(Offers(Fates(Step(s, Play), rest)), s.nextSeq, i);
    AdvanceTwice(reported, muxed, CutIn(Offers(Fates(Step(s, Play), rest))[..p]));
  }

  // ----- and in the pipeline

  /** A session is about to handle a Play, while its connection is inside the handler of request `r`,
      and it gave a stream-state reply in its turn `a`. */
  predicate AboutToPlay(sys: System, key: SessionKey, r: nat, a: nat) {
    && Known(sys, key) && sys.conns[key.conn].worker == Handling(r)
    && var s := sys.sessions[key];
    && s.pc.AtSelect? && s.loop.running && s.control != [] && s.control[0].PlayMessage?
    && a < |s.trace| && ReplyOf(Run(InitLoop(s.first), s.trace[..a]), s.trace[a]).StateReply?
  }

  /** The sequence number reported in turn `a`. */
  function Reported(s: Sess, a: nat): Seq16
    requires a < |s.trace| && ReplyOf(Run(InitLoop(s.first), s.trace[..a]), s.trace[a]).StateReply?
  {
    ReplyOf(Run(InitLoop(s.first), s.trace[..a]), s.trace[a]).rtpSeq
  }

  /** RTP messages muxed since that turn. */
  function MuxedSince(s: Sess, a: nat): nat
    requires a < |s.trace|
  {
    MuxedIn(Run(InitLoop(s.first), s.trace[..a + 1]), s.trace[a + 1..])
  }

  /** What the session has offered since `was`. */
  function OffersSince(was: Sess, now: Sess): seq<Offer> {
    var earlier, offers := OffersSoFar(was), OffersSoFar(now);
    if |earlier| <= |offers| then offers[|earlier|..] else []
  }

  lemma {:induction false} TraceAtSelect(s: Sess)
    requires s.pc.AtSelect?
    ensures TraceSoFar(s) == s.trace
  {
  }

  lemma {:induction false} PlayTurn(log: seq<Frame>, capacity: nat, key: SessionKey, s: Sess, c: Conn)
    requires s.pc.AtSelect? && s.loop.running && s.control != [] && s.control[0].PlayMessage?
    ensures var t := SessStep(log, capacity, key, s, c, HandleControl).0;
            t.trace == s.trace + [Play] && t.first == s.first
  {
  }

  /** The system after the session has handled its Play, and then whatever else happened. */
  function PlayedOn(capacity: nat, sys: System, key: SessionKey, more: seq<SysEvent>): System {
    SysRun(capacity, sys, [OnSession(key, HandleControl)] + more)
  }

  lemma {:induction false} TraceGoesOn(s: Sess, t: Sess, u: Sess) returns (rest: seq<Event>)
    requires t.trace == s.trace + [Play] && Continues(t, u)
    ensures TraceSoFar(u) == s.trace + [Play] + rest
  {
    assert t.trace <= TraceSoFar(u);
    rest := TraceSoFar(u)[|t.trace|..];
  }

  lemma {:induction false} AfterPlay(capacity: nat, sys: System, key: SessionKey, r: nat, a: nat, more: seq<SysEvent>) returns (rest: seq<Event>)
    requires SysInv(sys) && AboutToPlay(sys, key, r, a)
    ensures var now := PlayedOn(capacity, sys, key, more);
            && Sound(now, key) && now.sessions[key].first == sys.sessions[key].first
            && TraceSoFar(now.sessions[key]) == sys.sessions[key].trace + [Play] + rest
  {
    var s := sys.sessions[key];
    var next := SysStep(capacity, sys, OnSession(key, HandleControl));
    PlayTurn(sys.log, capacity, key, s, sys.conns[key.conn]);
    hide SysStep, SysRun, SessStep, TraceSoFar, SysInv;
    RunOne(capacity, sys, OnSession(key, HandleControl));
    SysRunConcat(capacity, sys, [OnSession(key, HandleControl)], more);
    StepSound(capacity, sys, key, HandleControl);
    RunContinues(capacity, next, more, key);
    rest := TraceGoesOn(s, next.sessions[key], SysRun(capacity, next, more).sessions[key]);
  }

  /** Of the messages `accepted` from a session, the one at `i` is the offer at `p` since the session was
      `was`; it carries the number reported in turn `a`, advanced by the RTP messages muxed between
      that report and the Play and by those refused since the Play. */
  predicate Announced(was: Sess, now: Sess, accepted: seq<Payload>, a: nat, i: nat, p: nat)
    requires a < |was.trace| && ReplyOf(Run(InitLoop(was.first), was.trace[..a]), was.trace[a]).StateReply?
  {
    var offers := OffersSince(was, now);
    && i < |accepted| && accepted[i].Rtp? && p < |offers| && offers[p].accepted && offers[p].payload == accepted[i]
    && accepted[i].number == Advance(Reported(was, a), MuxedSince(was, a) + CutIn(offers[..p]))
  }

  /** RTP-Info, end to end.  In any run, let a session have reported its stream state in turn `a`, and
      let it handle a Play while its connection is still inside the handler of request `r`.  Of what
      the connection has accepted from it in any state after that, the first new RTP message carries
      the reported number, advanced by the RTP messages muxed between report and Play and by those
      refused since the Play; and on the wire it stands behind the response to `r`. */
  lemma {:induction false} PlayAnnounced(capacity: nat, events: seq<SysEvent>, more: seq<SysEvent>, key: SessionKey, r: nat, a: nat, i: nat) returns (p: nat)
    requires var sys := SysRun(capacity, INITIAL, events);
             var now := PlayedOn(capacity, sys, key, more);
             && AboutToPlay(sys, key, r, a)
             && (Known(now, key) ==> FirstRtpFrom(AcceptedFrom(now, key), |AcceptedFrom(sys, key)|, i))
    ensures var sys := SysRun(capacity, INITIAL, events);
            var now := PlayedOn(capacity, sys, key, more);
            && Known(now, key)
            && Announced(sys.sessions[key], now.sessions[key], AcceptedFrom(now, key), a, i, p)
            && BehindResponse(sys.conns[key.conn], now.conns[key.conn], key, r, i)
  {
    Invariant(capacity, events);
    var sys := SysRun(capacity, INITIAL, events);
    hide SysRun, PlayedOn, Announced, AcceptedFrom, FirstRtpFrom, SysInv, BehindResponse;
    p := AnnouncedNumber(capacity, sys, more, key, r, a, i);
    NewMessage(AcceptedFrom(PlayedOn(capacity, sys, key, more), key), |AcceptedFrom(sys, key)|, i);
    PlacedBehind(capacity, sys, more, key, r, i);
  }

  lemma {:induction false} NewMessage(payloads: seq<Payload>, m: nat, i: nat)
    requires FirstRtpFrom(payloads, m, i)
    ensures m <= i
  {
  }

  lemma {:induction false} AnnouncedNumber(capacity: nat, sys: System, more: seq<SysEvent>, key: SessionKey, r: nat, a: nat, i: nat) returns (p: nat)
    requires SysInv(sys) && AboutToPlay(sys, key, r, a)
    requires var now := PlayedOn(capacity, sys, key, more);
             Known(now, key) ==> FirstRtpFrom(AcceptedFrom(now, key), |AcceptedFrom(sys, key)|, i)
    ensures var now := PlayedOn(capacity, sys, key, more);
            && Known(now, key)
            && Announced(sys.sessions[key], now.sessions[key], AcceptedFrom(now, key), a, i, p)
  {
    var now := PlayedOn(capacity, sys, key, more);
    var rest := AfterPlay(capacity, sys, key, r, a, more);
    ReadyToTurn(sys, key);
    AcceptedFromOffers(sys, key);
    AcceptedFromOffers(now, key);
    var s, t := sys.sessions[key], now.sessions[key];
    assert Simulates(s);
    hide PlayedOn, SysInv, Sound, OffersSoFar, AcceptedOnly, AcceptedFrom, Announced, FirstRtpFrom, Simulates, Run, Offers, Fates, TraceSoFar;
    p := NumberFrom(s, t, AcceptedFrom(now, key), rest, a, i);
  }

  /** The accepted messages of a session, from its Play on. */
  lemma {:induction false} SplitAtPlay(s: Sess, t: Sess, rest: seq<Event>)
    requires s.pc.AtSelect? && t.first == s.first && TraceSoFar(t) == s.trace + [Play] + rest
    ensures var since := Offers(Fates(Step(Run(InitLoop(s.first), s.trace), Play), rest));
            && OffersSince(s, t) == since
            && AcceptedOnly(OffersSoFar(t)) == AcceptedOnly(OffersSoFar(s)) + AcceptedOnly(since)
  {
    TraceAtSelect(s);
    hide TraceSoFar, Fates, Run, Step, AcceptedOnly, Offers;
    OffersFromPlay(s.first, s.trace, rest);
    AcceptedOnlyConcat(OffersSoFar(s), Offers(Fates(Step(Run(InitLoop(s.first), s.trace), Play), rest)));
  }

  lemma {:induction false} FirstOfRest(earlier: seq<Payload>, rest: seq<Payload>, i: nat)
    requires FirstRtpFrom(earlier + rest, |earlier|, i)
    ensures i >= |earlier| && FirstRtpFrom(rest, 0, i - |earlier|) && rest[i - |earlier|] == (earlier + rest)[i]
  {
    forall k | 0 <= k < i - |earlier| ensures !rest[k].Rtp? {
      assert (earlier + rest)[|earlier| + k] == rest[k];
    }
  }

  lemma {:induction false} NumberFrom(s: Sess, t: Sess, accepted: seq<Payload>, rest: seq<Event>, a: nat, i: nat) returns (p: nat)
    requires s.pc.AtSelect? && s.loop.running && Simulates(s) && t.first == s.first
    requires a < |s.trace| && ReplyOf(Run(InitLoop(s.first), s.trace[..a]), s.trace[a]).StateReply?
    requires TraceSoFar(t) == s.trace + [Play] + rest && accepted == AcceptedOnly(OffersSoFar(t))
    requires FirstRtpFrom(accepted, |AcceptedOnly(OffersSoFar(s))|, i)
    ensures Announced(s, t, accepted, a, i, p)
  {
    hide Simulates, Run, Step, TraceSoFar, AcceptedOnly, OffersSoFar, Fates, Offers, MuxedSince, Reported, ReplyOf, Advance, OffersSince, FirstRtpFrom, Announced;
    LoopIsRun(s);
    var n := FirstSince(s, t, accepted, rest, i);
    CounterSoFar(s, a);
    p := NumberAfterPlay(s.loop, rest, Reported(s, a), MuxedSince(s, a), n);
    Assemble(s, t, accepted, a, i, p, Offers(Fates(Step(s.loop, Play), rest)));
  }

  /** Which of the messages accepted since the Play is the first RTP one. */
  lemma {:induction false} FirstSince(s: Sess, t: Sess, accepted: seq<Payload>, rest: seq<Event>, i: nat) returns (n: nat)
    requires s.pc.AtSelect? && s.loop == Run(InitLoop(s.first), s.trace) && t.first == s.first
    requires TraceSoFar(t) == s.trace + [Play] + rest && accepted == AcceptedOnly(OffersSoFar(t))
    requires FirstRtpFrom(accepted, |AcceptedOnly(OffersSoFar(s))|, i)
    ensures var since := Offers(Fates(Step(s.loop, Play), rest));
            && since == OffersSince(s, t) && FirstRtpFrom(AcceptedOnly(since), 0, n)
            && n < |AcceptedOnly(since)| && i < |accepted| && accepted[i] == AcceptedOnly(since)[n] && accepted[i].Rtp?
  {
    hide Run, Step, TraceSoFar, AcceptedOnly, OffersSoFar, Fates, Offers, OffersSince, FirstRtpFrom;
    SplitAtPlay(s, t, rest);
    var earlier, later := AcceptedOnly(OffersSoFar(s)), AcceptedOnly(OffersSince(s, t));
    FirstOfRest(earlier, later, i);
    n := i - |earlier|;
    RtpAt(later, n);
    RtpAtAfter(accepted, |earlier|, i);
  }

  lemma {:induction false} RtpAtAfter(payloads: seq<Payload>, m: nat, i: nat)
    requires FirstRtpFrom(payloads, m, i)
    ensures i < |payloads| && payloads[i].Rtp?
  {
  }

  lemma {:induction false} LoopIsRun(s: Sess)
    requires Simulates(s) && s.pc.AtSelect?
    ensures s.loop == Run(InitLoop(s.first), s.trace)
  {
    hide Run, Fates;
  }

  lemma {:induction false} CounterSoFar(s: Sess, a: nat)
    requires s.loop.running && s.loop == Run(InitLoop(s.first), s.trace)
    requires a < |s.trace| && ReplyOf(Run(InitLoop(s.first), s.trace[..a]), s.trace[a]).StateReply?
    ensures s.loop.nextSeq == Advance(Reported(s, a), MuxedSince(s, a))
  {
    hide Run, Step, MuxedIn, ReplyOf, Advance;
    CounterSinceReply(InitLoop(s.first), s.trace, a);
  }

  lemma {:induction false} Assemble(was: Sess, now: Sess, accepted: seq<Payload>, a: nat, i: nat, p: nat, offers: seq<Offer>)
    requires a < |was.trace| && ReplyOf(Run(InitLoop(was.first), was.trace[..a]), was.trace[a]).StateReply?
    requires offers == OffersSince(was, now) && i < |accepted| && accepted[i].Rtp?
    requires p < |offers| && offers[p].accepted && offers[p].payload == accepted[i]
    requires accepted[i].number == Advance(Reported(was, a), MuxedSince(was, a) + CutIn(offers[..p]))
    ensures Announced(was, now, accepted, a, i, p)
  {
    hide Run, ReplyOf, OffersSince, Reported, MuxedSince, Advance, CutIn;
  }

  lemma {:induction false} RtpAt(payloads: seq<Payload>, i: nat)
    requires FirstRtpFrom(payloads, 0, i)
    ensures i < |payloads| && payloads[i].Rtp?
  {
  }

  /** Message `i` of this session, if it is on the wire, is there behind the response to `r`. */
  ghost predicate BehindResponse(was: Conn, now: Conn, key: SessionKey, r: nat, i: nat) {
    var wire, answered := Carried(now.wire), was.wire + [Response(r)];
    forall pos :: 0 <= pos < |wire| && wire[pos].session == key && |Project(wire[..pos], key)| == i ==>
      answered <= now.wire && |Carried(answered)| <= pos
  }

  lemma {:induction false} PlacedBehind(capacity: nat, sys: System, more: seq<SysEvent>, key: SessionKey, r: nat, i: nat)
    requires SysInv(sys) && Known(sys, key) && sys.conns[key.conn].worker == Handling(r) && i >= |AcceptedFrom(sys, key)|
    ensures var now := PlayedOn(capacity, sys, key, more);
            key.conn in now.conns && BehindResponse(sys.conns[key.conn], now.conns[key.conn], key, r, i)
  {
    var all := [OnSession(key, HandleControl)] + more;
    RunKeeps(capacity, sys, all);
    AnsweredFirstRun(capacity, sys, all, key.conn, r);
    AcceptedOnlyGrows(capacity, sys, all, key.conn);
    WireIsPrefix(sys, key.conn);
    WireIsPrefix(SysRun(capacity, sys, all), key.conn);
    hide SysRun, SysInv, BehindResponse, AnsweredFirst, Carried, Project;
    BehindFrom(sys.conns[key.conn], SysRun(capacity, sys, all).conns[key.conn], key, r, i);
  }

  lemma {:induction false} BehindFrom(was: Conn, now: Conn, key: SessionKey, r: nat, i: nat)
    requires AnsweredFirst(was.wire, r, now) && was.accepted <= now.accepted
    requires Carried(was.wire) <= was.accepted && Carried(now.wire) <= now.accepted && i >= |Project(was.accepted, key)|
    ensures BehindResponse(was, now, key, r, i)
  {
    BurstAppended(was.wire, Response(r));
    var wire := Carried(now.wire);
    hide Carried, Project;
    forall pos | 0 <= pos < |wire| && wire[pos].session == key && |Project(wire[..pos], key)| == i
      ensures was.wire + [Response(r)] <= now.wire && |Carried(was.wire + [Response(r)])| <= pos
    {
      NotAmongEarlier(was.accepted, now.accepted, wire, key, pos);
    }
  }

  /** A message that is among the first accepted has fewer of its session's before it than those. */
  lemma {:induction false} NotAmongEarlier(earlier: seq<Message>, accepted: seq<Message>, wire: seq<Message>, key: SessionKey, pos: nat)
    requires earlier <= accepted && wire <= accepted && pos < |wire| && wire[pos].session == key
    ensures pos >= |earlier| || |Project(wire[..pos], key)| < |Project(earlier, key)|
  {
    if pos < |earlier| {
      assert wire[..pos] + [wire[pos]] == earlier[..pos + 1];
      ProjectSnoc(wire[..pos], wire[pos], key);
      ProjectConcat(earlier[..pos + 1], earlier[pos + 1..], key);
      assert earlier[..pos + 1] + earlier[pos + 1..] == earlier;
    }
  }

  lemma {:induction false} AcceptedStep(capacity: nat, sys: System, e: SysEvent, conn: nat)
    requires conn in sys.conns
    ensures var next := SysStep(capacity, sys, e); conn in next.conns && sys.conns[conn].accepted <= next.conns[conn].accepted
  {
    if e.OnSession? && e.key in sys.sessions && e.key.conn in sys.conns {
      var _ := SessStepAccepts(sys.log, capacity, e.key, sys.sessions[e.key], sys.conns[e.key.conn], e.sessEvent);
    }
    hide SessStep;
  }

  lemma {:induction false} AcceptedOnlyGrows(capacity: nat, sys: System, more: seq<SysEvent>, conn: nat)
    requires conn in sys.conns
    ensures var now := SysRun(capacity, sys, more); conn in now.conns && sys.conns[conn].accepted <= now.conns[conn].accepted
  {
    if more == [] {
    } else {
      AcceptedOnlyGrows(capacity, sys, more[..|more| - 1], conn);
      AcceptedStep(capacity, SysRun(capacity, sys, more[..|more| - 1]), more[|more| - 1], conn);
      hide SysStep;
    }
  }
}
