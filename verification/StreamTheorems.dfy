/** What the streaming loop promises over whole runs, for every sequence of events. */
module StreamTheorems {
  import opened Sequences
  import opened Media
  import opened StreamSession

  // ----- the keyframe gate

  predicate GateInv(s: Loop) {
    && (s.mode.Ready? ==> s.waitForKeyframe)
    && s.droppedFrames <= 1
    && (s.droppedFrames == 1 ==> s.mode.Playing? && s.waitForKeyframe)
  }

  /** A `Play` was handled, that is, arrived while the loop was running. */
  ghost predicate Played(s: Loop, events: seq<Event>) {
    exists i :: 0 <= i < |events| && events[i].Play? && Run(s, events[..i]).running
  }

  /** In every run: Ready means waiting for a keyframe, `dropped_frames` is 0 or 1 (so the
      counter cannot overflow) and 1 only while waiting; the loop is Playing exactly when a
      Play was handled, and before that no frame is offered to the queue. */
  lemma {:induction false} Gate(first: Seq16, events: seq<Event>)
    ensures GateInv(Run(InitLoop(first), events))
    ensures Run(InitLoop(first), events).mode.Playing? <==> Played(InitLoop(first), events)
    ensures Run(InitLoop(first), events).mode.Ready? ==> forall f <- Fates(InitLoop(first), events) :: !f.Offered?
  {
    var s := InitLoop(first);
    if events == [] {
    } else {
      var before, e := events[..|events| - 1], events[|events| - 1];
      Gate(first, before);
      GateStep(Run(s, before), e);
      PlayedStep(s, events);
      hide Step, FatesOf, GateInv;
      assert Fates(s, events) == Fates(s, before) + FatesOf(Run(s, before), e);
    }
  }

  lemma {:induction false} GateStep(t: Loop, e: Event)
    requires GateInv(t)
    ensures GateInv(Step(t, e))
    ensures Step(t, e).mode.Playing? <==> t.mode.Playing? || (t.running && e.Play?)
    ensures t.mode.Ready? ==> forall f <- FatesOf(t, e) :: !f.Offered?
  {
  }

  lemma {:induction false} PlayedStep(s: Loop, events: seq<Event>)
    requires events != []
    ensures var before, e := events[..|events| - 1], events[|events| - 1];
            Played(s, events) <==> Played(s, before) || (e.Play? && Run(s, before).running)
  {
    hide Step;
    var before, e := events[..|events| - 1], events[|events| - 1];
    forall i | 0 <= i < |before| ensures events[..i] == before[..i] {}
    if Played(s, before) {
      var i :| 0 <= i < |before| && before[i].Play? && Run(s, before[..i]).running;
      assert events[i].Play? && Run(s, events[..i]).running;
    }
    if e.Play? && Run(s, before).running {
      assert events[|events| - 1].Play? && Run(s, events[..|events| - 1]).running;
    }
  }

  // ----- what ends a session, and what does not

  /** Pushing `n` messages, the first one that the queue refuses is refused because it is closed. */
  ghost predicate MeetsClosed(n: nat, sends: Sends) {
    exists i :: 0 <= i < n && Attempt(sends, i).Closed? && forall j :: 0 <= j < i ==> Attempt(sends, j).Sent?
  }

  /** The keyframe gate is shut for this frame. */
  predicate GateShut(t: Loop, frame: Frame) {
    t.mode.Playing? && t.waitForKeyframe && !frame.key
  }

  /** The source or the control channel breaks, the session is stopped, the muxer fails on a frame that
      passes the gate, or a frame that is sent meets a closed connection. */
  ghost predicate Fatal(t: Loop, e: Event) {
    || e.SourceBroken? || e.ControlBroken? || e.StopSignal?
    || (e.Packet? && !GateShut(t, e.frame)
        && (e.mux.MuxFailed? || (t.mode.Playing? && MeetsClosed(|e.mux.kinds|, e.sends))))
  }

  lemma {:induction false} ClosedIsMet(n: nat, sends: Sends)
    ensures MeetsClosed(n, sends) <==> AcceptedCount(n, sends) < n && sends.ClosedAt?
  {
    var k := AcceptedCount(n, sends);
    if k < n && sends.ClosedAt? {
      assert Attempt(sends, k).Closed?;
    }
  }

  lemma {:induction false} FatalStep(t: Loop, e: Event)
    ensures Step(t, e).running <==> t.running && !Fatal(t, e)
  {
    if e.Packet? && e.mux.Muxed? {
      ClosedIsMet(|e.mux.kinds|, e.sends);
    }
    hide MeetsClosed, AcceptedCount;
  }

  ghost predicate FatalAt(s: Loop, events: seq<Event>, i: nat)
    requires i < |events|
  {
    Fatal(Run(s, events[..i]), events[i])
  }

  /** None of the events was fatal where it came. */
  ghost predicate NoneFatal(s: Loop, events: seq<Event>) {
    forall i :: 0 <= i < |events| ==> !FatalAt(s, events, i)
  }

  lemma {:induction false} NoneFatalSnoc(s: Loop, events: seq<Event>, e: Event)
    ensures NoneFatal(s, events + [e]) <==> NoneFatal(s, events) && !Fatal(Run(s, events), e)
  {
    hide Run, Fatal;
    var longer := events + [e];
    forall i | 0 <= i <= |events| ensures longer[..i] == events[..i] {}
    assert forall i :: 0 <= i < |events| ==> (FatalAt(s, longer, i) <==> FatalAt(s, events, i));
    assert events[..|events|] == events;
    assert FatalAt(s, longer, |events|) <==> Fatal(Run(s, events), e);
  }

  /** A session survives lag, full queues, discarded frames and control messages: after any events
      its loop runs if and only if none of them was fatal. */
  lemma {:induction false} SurvivesIff(s: Loop, events: seq<Event>)
    requires s.running
    ensures Run(s, events).running <==> NoneFatal(s, events)
  {
    if events == [] {
    } else {
      var before, e := events[..|events| - 1], events[|events| - 1];
      hide Step, Fatal, NoneFatal;
      SurvivesIff(s, before);
      FatalStep(Run(s, before), e);
      SplitLast(events);
      NoneFatalSnoc(s, before, e);
    }
  }

  // ----- what the fates mean

  /** A frame is discarded exactly if the gate is shut, unmuxed if the muxer failed, muxed silently if
      no Play was handled, and otherwise offered; of an offered frame exactly the messages before the
      first refusal were accepted, and it is cut off if that refusal was by a closed queue. */
  lemma {:induction false} FateOfPacket(t: Loop, e: Event)
    requires t.running && e.Packet?
    ensures |FatesOf(t, e)| == 1
    ensures var fate, open := FatesOf(t, e)[0], !GateShut(t, e.frame);
            && (fate.Discarded? <==> !open)
            && (fate.Unmuxed? <==> open && e.mux.MuxFailed?)
            && (fate.Silent? <==> open && e.mux.Muxed? && t.mode.Ready?)
            && (fate.Offered? <==> open && e.mux.Muxed? && t.mode.Playing?)
    ensures var fate := FatesOf(t, e)[0];
            fate.Offered? ==>
              && |fate.payloads| == |e.mux.kinds| && fate.accepted <= |fate.payloads|
              && (forall i :: 0 <= i < fate.accepted ==> Attempt(e.sends, i).Sent?)
              && (fate.accepted < |fate.payloads| ==>
                    !Attempt(e.sends, fate.accepted).Sent? && (fate.closed <==> Attempt(e.sends, fate.accepted).Closed?))
              && (fate.Whole() ==> !fate.closed)
  {
  }

  function HowMany(fates: seq<Fate>, p: Fate -> bool): nat {
    if fates == [] then 0
    else HowMany(fates[..|fates| - 1], p) + if p(fates[|fates| - 1]) then 1 else 0
  }

  predicate WasSkipped(f: Fate) { f.Skipped? }

  predicate WasDiscarded(f: Fate) { f.Discarded? }

  predicate WasUnmuxed(f: Fate) { f.Unmuxed? }

  predicate WasSilent(f: Fate) { f.Silent? }

  predicate WasWhole(f: Fate) { f.Whole() }

  predicate WasTruncated(f: Fate) { f.Offered? && !f.Whole() && !f.closed }

  predicate WasCutOff(f: Fate) { f.Offered? && !f.Whole() && f.closed }

  /** Every frame has exactly one of seven fates. */
  lemma {:induction false} FatesPartition(fates: seq<Fate>)
    ensures |fates| == HowMany(fates, WasSkipped) + HowMany(fates, WasDiscarded) + HowMany(fates, WasUnmuxed)
                       + HowMany(fates, WasSilent) + HowMany(fates, WasWhole) + HowMany(fates, WasTruncated) + HowMany(fates, WasCutOff)
  {
    if fates == [] {
    } else {
      FatesPartition(fates[..|fates| - 1]);
    }
  }

  lemma {:induction false} HowManyIsSize(fates: seq<Fate>, p: Fate -> bool)
    ensures HowMany(fates, p) == |set i: nat | i < |fates| && p(fates[i])|
  {
    var all := set i: nat | i < |fates| && p(fates[i]);
    if fates == [] {
      assert all == {};
    } else {
      var n := |fates| - 1;
      var before := fates[..n];
      var front := set i: nat | i < n && p(before[i]);
      HowManyIsSize(before, p);
      hide HowMany;
      assert forall i: nat :: i < n ==> before[i] == fates[i];
      assert n in all <==> p(fates[n]);
      assert all - {n} == front;
    }
  }

  lemma {:induction false} HowManyConcat(a: seq<Fate>, b: seq<Fate>, p: Fate -> bool)
    ensures HowMany(a + b, p) == HowMany(a, p) + HowMany(b, p)
    decreases |b|
  {
    if b == [] {
      assert a + b == a;
    } else {
      HowManyConcat(a, b[..|b| - 1], p);
      ConcatLast(a, b);
      FrontOf(a + b[..|b| - 1], b[|b| - 1]);
    }
  }

  lemma {:induction false} AllSkipped(n: nat)
    ensures HowMany(Skips(n), WasSkipped) == n
  {
    if n > 0 {
      AllSkipped(n - 1);
      assert Skips(n)[..n - 1] == Skips(n - 1);
    }
  }

  /** Frames reported lost to lag while the loop ran. */
  function LaggedIn(s: Loop, events: seq<Event>): nat {
    if events == [] then 0
    else
      var before, e := events[..|events| - 1], events[|events| - 1];
      LaggedIn(s, before) + if Run(s, before).running && e.Lagged? then e.skipped else 0
  }

  lemma {:induction false} SkippedBy(t: Loop, e: Event)
    ensures HowMany(FatesOf(t, e), WasSkipped) == if t.running && e.Lagged? then e.skipped else 0
  {
    if t.running && e.Lagged? {
      AllSkipped(e.skipped);
    } else if t.running && e.Packet? {
      FateOfPacket(t, e);
      assert FatesOf(t, e)[..0] == [];
    }
  }

  /** Frames have the fate Skipped exactly as often as lag reports say. */
  lemma {:induction false} SkippedIsLag(s: Loop, events: seq<Event>)
    ensures HowMany(Fates(s, events), WasSkipped) == LaggedIn(s, events)
  {
    if events == [] {
    } else {
      var before, e := events[..|events| - 1], events[|events| - 1];
      SkippedIsLag(s, before);
      SkippedBy(Run(s, before), e);
      HowManyConcat(Fates(s, before), FatesOf(Run(s, before), e), WasSkipped);
      hide Run, Step, FatesOf, HowMany;
    }
  }

  // ----- sequence-gap accounting

  /** One message pushed at the queue, and whether the queue took it. */
  datatype Offer = Offer(payload: Payload, accepted: bool)

  function OffersOf(fate: Fate): seq<Offer> {
    if fate.Offered? then seq(|fate.payloads|, i requires 0 <= i < |fate.payloads| => Offer(fate.payloads[i], i < fate.accepted))
    else []
  }

  function Offers(fates: seq<Fate>): seq<Offer> {
    if fates == [] then []
    else Offers(fates[..|fates| - 1]) + OffersOf(fates[|fates| - 1])
  }

  function RtpIn(offers: seq<Offer>): nat {
    if offers == [] then 0
    else RtpIn(offers[..|offers| - 1]) + if offers[|offers| - 1].payload.Rtp? then 1 else 0
  }

  /** RTP messages the queue refused. */
  function CutIn(offers: seq<Offer>): nat {
    if offers == [] then 0
    else
      var last := offers[|offers| - 1];
      CutIn(offers[..|offers| - 1]) + if last.payload.Rtp? && !last.accepted then 1 else 0
  }

  /** The RTP messages of `offers` are numbered consecutively from `first`. */
  ghost predicate Numbered(offers: seq<Offer>, first: Seq16) {
    forall i :: 0 <= i < |offers| ==> NumberedAt(offers, first, i)
  }

  ghost predicate NumberedAt(offers: seq<Offer>, first: Seq16, i: nat)
    requires i < |offers|
  {
    offers[i].payload.Rtp? ==> offers[i].payload.number == Advance(first, RtpIn(offers[..i]))
  }

  lemma {:induction false} RtpInConcat(a: seq<Offer>, b: seq<Offer>)
    ensures RtpIn(a + b) == RtpIn(a) + RtpIn(b)
    decreases |b|
  {
    if b == [] {
      assert a + b == a;
    } else {
      RtpInConcat(a, b[..|b| - 1]);
      assert (a + b)[..|a + b| - 1] == a + b[..|b| - 1];
    }
  }

  lemma {:induction false} NumberedConcat(a: seq<Offer>, b: seq<Offer>, first: Seq16)
    requires Numbered(a, first) && Numbered(b, Advance(first, RtpIn(a)))
    ensures Numbered(a + b, first)
  {
    forall i | 0 <= i < |a + b| ensures NumberedAt(a + b, first, i) {
      if i < |a| {
        assert NumberedAt(a, first, i);
        assert (a + b)[..i] == a[..i];
      } else {
        assert NumberedAt(b, Advance(first, RtpIn(a)), i - |a|);
        AdvanceTwice(first, RtpIn(a), RtpIn(b[..i - |a|]));
        assert (a + b)[..i] == a + b[..i - |a|];
        RtpInConcat(a, b[..i - |a|]);
      }
    }
  }

  lemma {:induction false} FrameRtp(first: Seq16, kinds: seq<Kind>, accepted: nat, closed: bool, n: nat)
    requires n <= |kinds|
    ensures RtpIn(OffersOf(Offered(Number(first, kinds), accepted, closed))[..n]) == RtpCount(kinds[..n])
  {
    var offers := OffersOf(Offered(Number(first, kinds), accepted, closed));
    if n > 0 {
      FrameRtp(first, kinds, accepted, closed, n - 1);
      assert offers[..n][..n - 1] == offers[..n - 1];
      assert kinds[..n][..n - 1] == kinds[..n - 1];
    }
  }

  lemma {:induction false} FrameNumbered(first: Seq16, kinds: seq<Kind>, accepted: nat, closed: bool)
    ensures var offers := OffersOf(Offered(Number(first, kinds), accepted, closed));
            Numbered(offers, first) && RtpIn(offers) == RtpCount(kinds)
  {
    var offers := OffersOf(Offered(Number(first, kinds), accepted, closed));
    forall i | 0 <= i < |offers| ensures NumberedAt(offers, first, i) {
      FrameRtp(first, kinds, accepted, closed, i);
    }
    FrameRtp(first, kinds, accepted, closed, |kinds|);
    assert offers[..|kinds|] == offers && kinds[..|kinds|] == kinds;
  }

  lemma {:induction false} OffersSnoc(fates: seq<Fate>, fate: Fate)
    ensures Offers(fates + [fate]) == Offers(fates) + OffersOf(fate)
  {
    assert (fates + [fate])[..|fates|] == fates;
  }

  lemma {:induction false} OffersConcat(a: seq<Fate>, b: seq<Fate>)
    ensures Offers(a + b) == Offers(a) + Offers(b)
    decreases |b|
  {
    if b == [] {
      assert a + b == a;
    } else {
      var front, last := b[..|b| - 1], b[|b| - 1];
      OffersConcat(a, front);
      OffersSnoc(front, last);
      OffersSnoc(a + front, last);
      SplitLast(b);
      ConcatLast(a, b);
      hide Offers, OffersOf;
      Associative(Offers(a), Offers(front), OffersOf(last));
    }
  }

  lemma {:induction false} SkipsOfferNothing(n: nat)
    ensures Offers(Skips(n)) == []
  {
    if n > 0 {
      SkipsOfferNothing(n - 1);
      assert Skips(n)[..n - 1] == Skips(n - 1);
    }
  }

  /** What one step adds to the offers. */
  lemma {:induction false} StepOffers(s: Loop, e: Event)
    requires s.running
    ensures var offers := Offers(FatesOf(s, e));
            && (s.mode.Ready? ==> offers == [])
            && Numbered(offers, s.nextSeq)
            && (s.mode.Playing? && Step(s, e).running ==> Step(s, e).nextSeq == Advance(s.nextSeq, RtpIn(offers)))
  {
    match e
    case Lagged(skipped) =>
      SkipsOfferNothing(skipped);
    case Packet(frame, mux, sends) =>
      PacketOffers(s, e);
    case _ =>
  }

  lemma {:induction false} PacketOffers(s: Loop, e: Event)
    requires s.running && e.Packet?
    ensures var offers := Offers(FatesOf(s, e));
            && (s.mode.Ready? ==> offers == [])
            && Numbered(offers, s.nextSeq)
            && (s.mode.Playing? && Step(s, e).running ==> Step(s, e).nextSeq == Advance(s.nextSeq, RtpIn(offers)))
  {
    var fate := FatesOf(s, e)[0];
    OffersOne(fate);
    assert FatesOf(s, e) == [fate];
    if fate.Offered? {
      FrameNumbered(s.nextSeq, e.mux.kinds, fate.accepted, fate.closed);
    }
  }

  lemma {:induction false} OffersOne(fate: Fate)
    ensures Offers([fate]) == OffersOf(fate)
  {
    OffersSnoc([], fate);
    assert [] + [fate] == [fate] && [] + OffersOf(fate) == OffersOf(fate);
  }

  /** The numbering so far: `offers` are numbered from `first`, and a running loop's muxer
      stands right behind them. */
  ghost predicate Numbering(offers: seq<Offer>, t: Loop, first: Seq16) {
    && Numbered(offers, first)
    && (t.running ==> t.nextSeq == Advance(first, RtpIn(offers)))
    && (t.running && t.mode.Ready? ==> offers == [])
  }

  lemma {:induction false} NumberedExtend(offers: seq<Offer>, more: seq<Offer>, first: Seq16)
    requires Numbered(offers, first) && Numbered(more, Advance(first, RtpIn(offers)))
    ensures Numbered(offers + more, first)
    ensures Advance(Advance(first, RtpIn(offers)), RtpIn(more)) == Advance(first, RtpIn(offers + more))
  {
    NumberedConcat(offers, more, first);
    RtpInConcat(offers, more);
    AdvanceTwice(first, RtpIn(offers), RtpIn(more));
  }

  lemma {:induction false} NumberingStep(offers: seq<Offer>, t: Loop, first: Seq16, e: Event) returns (first': Seq16)
    requires Numbering(offers, t, first)
    ensures Numbering(offers + Offers(FatesOf(t, e)), Step(t, e), first')
    ensures t.mode.Playing? ==> first' == first
  {
    first' := first;
    var more := Offers(FatesOf(t, e));
    if !t.running {
      assert offers + more == offers;
    } else {
      StepOffers(t, e);
      if t.mode.Ready? {
        // Still silent: the count restarts wherever the muxer now stands.
        first' := Step(t, e).nextSeq;
        assert offers + more == [];
      } else {
        NumberedExtend(offers, more, first);
      }
    }
  }

  /** All messages a session ever offers its queue are numbered consecutively: frames lost
      to lag or awaiting a keyframe consume no numbers. */
  lemma {:induction false} OffersNumbered(start: Seq16, events: seq<Event>) returns (first: Seq16)
    ensures Numbering(Offers(Fates(InitLoop(start), events)), Run(InitLoop(start), events), first)
  {
    var s := InitLoop(start);
    if events == [] {
      first := start;
    } else {
      var before, e := events[..|events| - 1], events[|events| - 1];
      first := OffersNumbered(start, before);
      first := NumberingStep(Offers(Fates(s, before)), Run(s, before), first, e);
      OffersConcat(Fates(s, before), FatesOf(Run(s, before), e));
    }
  }

  /** Playing never returns to Ready. */
  lemma {:induction false} PlayingForever(s: Loop, events: seq<Event>)
    requires s.mode.Playing?
    ensures Run(s, events).mode.Playing?
  {
    if events == [] {
    } else {
      PlayingForever(s, events[..|events| - 1]);
    }
  }

  /** From a playing state on, the numbering starts right where the muxer stands. */
  lemma {:induction false} PlayingNumbering(s: Loop, events: seq<Event>)
    requires s.running && s.mode.Playing?
    ensures Numbering(Offers(Fates(s, events)), Run(s, events), s.nextSeq)
  {
    if events == [] {
    } else {
      var before, e := events[..|events| - 1], events[|events| - 1];
      PlayingNumbering(s, before);
      PlayingForever(s, before);
      var _ := NumberingStep(Offers(Fates(s, before)), Run(s, before), s.nextSeq, e);
      OffersConcat(Fates(s, before), FatesOf(Run(s, before), e));
    }
  }

  lemma {:induction false} CutsAreAll(offers: seq<Offer>)
    requires forall o <- offers :: o.payload.Rtp? ==> !o.accepted
    ensures CutIn(offers) == RtpIn(offers)
  {
    if offers == [] {
    } else {
      CutsAreAll(offers[..|offers| - 1]);
    }
  }

  /** Offer `i` is an RTP message the queue accepted. */
  predicate Delivered(offers: seq<Offer>, i: nat) {
    i < |offers| && offers[i].accepted && offers[i].payload.Rtp?
  }

  /** Offers `p` and `q` are RTP messages the queue accepted, with none in between. */
  ghost predicate Successive(offers: seq<Offer>, p: nat, q: nat) {
    p < q && Delivered(offers, p) && Delivered(offers, q) && forall i :: p < i < q ==> !Delivered(offers, i)
  }

  lemma {:induction false} GapIn(offers: seq<Offer>, first: Seq16, p: nat, q: nat)
    requires Numbered(offers, first)
    requires Successive(offers, p, q)
    ensures offers[q].payload.number == Advance(offers[p].payload.number, 1 + CutIn(offers[p + 1..q]))
  {
    var between := offers[p + 1..q];
    forall o | o in between ensures o.payload.Rtp? ==> !o.accepted {
      var i :| 0 <= i < |between| && between[i] == o;
      assert !Delivered(offers, p + 1 + i);
    }
    CutsAreAll(between);
    assert offers[..p + 1][..p] == offers[..p];
    assert offers[..q] == offers[..p + 1] + between;
    RtpInConcat(offers[..p + 1], between);
    assert NumberedAt(offers, first, p) && NumberedAt(offers, first, q);
    AdvanceTwice(first, RtpIn(offers[..p]), 1 + CutIn(between));
  }

  /** Sequence-gap accounting.  Between two consecutive RTP messages the queue accepted, the
      numbers skipped are exactly the RTP messages it refused in between, modulo 2^16. */
  lemma {:induction false} GapAccounting(start: Seq16, events: seq<Event>, offers: seq<Offer>, p: nat, q: nat)
    requires offers == Offers(Fates(InitLoop(start), events)) && Successive(offers, p, q)
    ensures offers[q].payload.number == Advance(offers[p].payload.number, 1 + CutIn(offers[p + 1..q]))
  {
    var first := OffersNumbered(start, events);
    GapIn(offers, first, p, q);
  }

  // ----- the muxer's counter

  /** RTP messages muxed by one event. */
  function MuxedBy(s: Loop, e: Event): nat {
    if s.running && e.Packet? && Admits(s, e.frame) && e.mux.Muxed? then RtpCount(e.mux.kinds) else 0
  }

  /** And by a run. */
  function MuxedIn(s: Loop, events: seq<Event>): nat {
    if events == [] then 0
    else
      var before := events[..|events| - 1];
      MuxedIn(s, before) + MuxedBy(Run(s, before), events[|events| - 1])
  }

  lemma {:induction false} CounterStep(s: Loop, e: Event)
    ensures Step(s, e).running ==> s.running && Step(s, e).nextSeq == Advance(s.nextSeq, MuxedBy(s, e))
    ensures ReplyOf(s, e).StateReply? ==> Step(s, e).nextSeq == ReplyOf(s, e).rtpSeq
  {
  }

  /** While the loop runs, the muxer's counter moves by the RTP messages muxed, sent or not. */
  lemma {:induction false} CounterRun(s: Loop, events: seq<Event>)
    ensures Run(s, events).running ==> s.running && Run(s, events).nextSeq == Advance(s.nextSeq, MuxedIn(s, events))
  {
    if events == [] {
    } else {
      var before, e := events[..|events| - 1], events[|events| - 1];
      CounterRun(s, before);
      CounterStep(Run(s, before), e);
      AdvanceTwice(s.nextSeq, MuxedIn(s, before), MuxedBy(Run(s, before), e));
      hide Step, MuxedBy, Advance;
    }
  }

  // ----- bounded recovery

  /** No lag and no Play, and the queue has room for the whole frame. */
  predicate Calm(e: Event) {
    e.StreamState? || (e.Packet? && e.mux.Muxed? && AcceptedCount(|e.mux.kinds|, e.sends) == |e.mux.kinds|)
  }

  function FramesIn(events: seq<Event>): seq<Frame> {
    if events == [] then []
    else FramesIn(events[..|events| - 1]) + if events[|events| - 1].Packet? then [events[|events| - 1].frame] else []
  }

  /** A keyframe among any `gop` frames in a row. */
  ghost predicate KeyedEvery(frames: seq<Frame>, gop: nat) {
    forall i: nat :: i + gop <= |frames| ==> KeyWithin(frames, i, gop)
  }

  ghost predicate KeyWithin(frames: seq<Frame>, i: nat, gop: nat) {
    exists j :: i <= j < i + gop && j < |frames| && frames[j].key
  }

  /** The first `r` frames are discarded and every later one is delivered whole. */
  ghost predicate ResumesAt(fates: seq<Fate>, r: nat) {
    && r <= |fates|
    && (forall i :: 0 <= i < r ==> fates[i].Discarded?)
    && (forall i :: r <= i < |fates| ==> fates[i].Whole())
  }

  /** A playing loop after calm events: the first `r` frames, none of them a keyframe, were
      discarded, the others delivered whole; and while it waits all were discarded. */
  ghost predicate Recovering(t: Loop, fates: seq<Fate>, frames: seq<Frame>, r: nat) {
    && t.running && t.mode.Playing?
    && |fates| == |frames| && ResumesAt(fates, r)
    && (t.waitForKeyframe ==> r == |frames|)
    && (forall i :: 0 <= i < r ==> !frames[i].key)
  }

  lemma {:induction false} RecoveryPoint(s: Loop, events: seq<Event>) returns (r: nat)
    requires s.running && s.mode.Playing?
    requires forall e <- events :: Calm(e)
    ensures Recovering(Run(s, events), Fates(s, events), FramesIn(events), r)
  {
    r := 0;
    if events == [] {
    } else {
      var before, e := events[..|events| - 1], events[|events| - 1];
      SplitLast(events);
      assert Calm(e) && forall e' <- before :: e' in events;
      r := RecoveryPoint(s, before);
      hide Step, FatesOf, Calm, Recovering;
      r := RecoveryStep(Run(s, before), Fates(s, before), FramesIn(before), r, e);
    }
  }

  lemma {:induction false} RecoveryStep(t: Loop, fates: seq<Fate>, frames: seq<Frame>, r: nat, e: Event) returns (r': nat)
    requires Recovering(t, fates, frames, r) && Calm(e)
    ensures Recovering(Step(t, e), fates + FatesOf(t, e), frames + if e.Packet? then [e.frame] else [], r')
  {
    CalmStep(t, e);
    r' := if e.Packet? && !Admits(t, e.frame) then r + 1 else r;
    if e.Packet? {
      assert FatesOf(t, e) == [FatesOf(t, e)[0]];
    } else {
      assert fates + [] == fates && frames + [] == frames;
    }
    hide Step, FatesOf, Admits, Calm;
  }

  /** A calm event neither stops a playing loop nor cuts a frame. */
  lemma {:induction false} CalmStep(t: Loop, e: Event)
    requires t.running && t.mode.Playing? && Calm(e)
    ensures Step(t, e).running && Step(t, e).mode.Playing?
    ensures e.Packet? ==>
              && |FatesOf(t, e)| == 1
              && (if Admits(t, e.frame) then FatesOf(t, e)[0].Whole() && !Step(t, e).waitForKeyframe
                  else FatesOf(t, e)[0].Discarded? && Step(t, e) == t && t.waitForKeyframe && !e.frame.key)
              && (!t.waitForKeyframe ==> Admits(t, e.frame))
    ensures !e.Packet? ==> FatesOf(t, e) == [] && Step(t, e).waitForKeyframe == t.waitForKeyframe
  {
  }

  /** Bounded recovery.  If every `gop` frames hold a keyframe and from now on nothing lags,
      no Play arrives and each frame fits the queue, a playing session discards fewer than
      `gop` frames and then delivers every frame whole. */
  lemma {:induction false} BoundedRecovery(s: Loop, events: seq<Event>, gop: nat)
    requires s.running && s.mode.Playing? && gop > 0
    requires forall e <- events :: Calm(e)
    requires KeyedEvery(FramesIn(events), gop)
    ensures |Fates(s, events)| == |FramesIn(events)|
    ensures exists r: nat :: r < gop && ResumesAt(Fates(s, events), r)
  {
    if gop <= |FramesIn(events)| {
      assert KeyWithin(FramesIn(events), 0, gop);
    }
    var r := RecoveryPoint(s, events);
  }

  // ----- the stream-state reply

  /** The reply is never overdue.  While a running session owes a reply and has not given it,
      each frame it received was a non-key frame discarded while Playing: so the reply comes
      with the next received frame while Ready, and no later than the next keyframe. */
  lemma {:induction false} ReplyDue(s: Loop, events: seq<Event>)
    requires s.running && s.needStreamState
    requires forall i :: 0 <= i < |events| ==> ReplyOf(Run(s, events[..i]), events[i]).NoReply?
    requires Run(s, events).running
    ensures Run(s, events).needStreamState
    ensures forall i :: 0 <= i < |events| && events[i].Packet? ==>
              var t := Run(s, events[..i]);
              t.running && t.mode.Playing? && t.waitForKeyframe && !events[i].frame.key
  {
    hide Step, ReplyOf;
    OwedAt(s, events, |events|);
    assert events[..|events|] == events;
    forall i | 0 <= i < |events| && events[i].Packet?
      ensures var t := Run(s, events[..i]);
              t.running && t.mode.Playing? && t.waitForKeyframe && !events[i].frame.key
    {
      OwedAt(s, events, i);
      OwedAt(s, events, i + 1);
      PrefixStep(s, events, i);
      ReplyStep(Run(s, events[..i]), events[i]);
    }
  }

  lemma {:induction false} OwedAt(s: Loop, events: seq<Event>, i: nat)
    requires s.running && s.needStreamState && i <= |events| && Run(s, events).running
    requires forall j :: 0 <= j < |events| ==> ReplyOf(Run(s, events[..j]), events[j]).NoReply?
    ensures Run(s, events[..i]).running && Run(s, events[..i]).needStreamState
    decreases i
  {
    hide Step, ReplyOf;
    if !Run(s, events[..i]).running {
      Stopped(s, events, i);
    }
    if i > 0 {
      OwedAt(s, events, i - 1);
      PrefixStep(s, events, i - 1);
      ReplyStep(Run(s, events[..i - 1]), events[i - 1]);
    }
  }

  lemma {:induction false} ReplyStep(t: Loop, e: Event)
    ensures Step(t, e).running ==> t.running
    ensures t.running && t.needStreamState && ReplyOf(t, e).NoReply? && Step(t, e).running ==>
              && Step(t, e).needStreamState
              && (e.Packet? ==> t.mode.Playing? && t.waitForKeyframe && !e.frame.key)
  {
  }

  /** What a reply reports: where the muxer's counter stands once it is done with the frame, also when
      it failed on it. */
  lemma {:induction false} ReplyReports(t: Loop, e: Event)
    requires ReplyOf(t, e).StateReply?
    ensures e.Packet?
    ensures ReplyOf(t, e).rtpSeq == match e.mux case Muxed(kinds) => Advance(t.nextSeq, RtpCount(kinds)) case MuxFailed(counter) => counter
  {
  }
}
